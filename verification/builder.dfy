/** FreeCertBuilder: the fluent configuration of an ACME session and the
    decision logic of BuildAsync, as a pure plan of remote and file actions
    plus an interpreter that runs a plan against an abstract CA and disk. */
module FreeCertBuilder {
  import opened Failures
  import opened Storage

  const TosRejectedMessage: string := "As you do not accept the Let's Encrypt terms of service, will not be able to continue working."
  const NoDomainMessage: string := "No domain is available."
  const NoEmailMessage: string := "No email address is available and no account can be created."
  const MailtoScheme: string := "mailto:"

  function KeyNotFoundMessage(path: string): string
  {
    "Can not load account, key file not found in path " + path + "."
  }

  /** The ACME directory a session talks to (LetsEncryptV2 / LetsEncryptStagingV2). */
  datatype Server = Production | Staging

  /** The builder's fields: emails and domains in the order they were added,
      the account key and the order location once loaded. */
  datatype Builder = Builder(
    layout: Layout,
    debug: bool,
    accounts: seq<string>,
    domains: seq<string>,
    accountKey: Option<string>,
    orderUri: Option<string>)

  /** A builder (or the exception the constructor threw) and the disk after construction. */
  datatype Created = Created(result: Result<Builder>, disk: Disk)

  /** The constructor: the terms-of-service gate comes before any field is
      set and before the work directory is created. */
  function NewBuilder(acceptTos: bool, layout: Layout, debug: bool, disk: Disk): (c: Created)
    ensures !acceptTos ==> c.result == Err(FreeCertError(TosRejectedMessage)) && c.disk == disk
    ensures acceptTos ==> c.result == Ok(Builder(layout, debug, [], [], None, None))
    ensures acceptTos ==> c.disk.files == disk.files && c.disk.dirs == disk.dirs + {layout.workDir}
  {
    if !acceptTos then Created(Err(FreeCertError(TosRejectedMessage)), disk)
    else Created(Ok(Builder(layout, debug, [], [], None, None)), disk.(dirs := disk.dirs + {layout.workDir}))
  }

  /** AddNewAccount(email): the email goes after those already collected;
      nothing else changes. */
  function AddNewAccount(b: Builder, email: string): (r: Builder)
    ensures Extends(b, r, [email], [])
  {
    b.(accounts := b.accounts + [email])
  }

  /** AddNewAccount(emails): the emails go, in order, after those already
      collected; nothing else changes. */
  function AddNewAccounts(b: Builder, emails: seq<string>): (r: Builder)
    ensures Extends(b, r, emails, [])
  {
    b.(accounts := b.accounts + emails)
  }

  /** SetDomain: the domain goes after those already collected; nothing else
      changes. */
  function SetDomain(b: Builder, domain: string): (r: Builder)
    ensures Extends(b, r, [], [domain])
  {
    b.(domains := b.domains + [domain])
  }

  /** SetDomains: the domains go, in order, after those already collected;
      nothing else changes. */
  function SetDomains(b: Builder, domains: seq<string>): (r: Builder)
    ensures Extends(b, r, [], domains)
  {
    b.(domains := b.domains + domains)
  }

  /** One call of the fluent configuration API. */
  datatype Setting =
    | AddEmail(email: string)
    | AddEmails(emails: seq<string>)
    | AddDomain(domain: string)
    | AddDomains(names: seq<string>)

  function Apply(b: Builder, s: Setting): Builder
  {
    match s
    case AddEmail(e) => AddNewAccount(b, e)
    case AddEmails(es) => AddNewAccounts(b, es)
    case AddDomain(d) => SetDomain(b, d)
    case AddDomains(ds) => SetDomains(b, ds)
  }

  /** A chain of configuration calls, applied left to right. */
  function ApplyAll(b: Builder, script: seq<Setting>): Builder
    decreases |script|
  {
    if |script| == 0 then b else ApplyAll(Apply(b, script[0]), script[1..])
  }

  /** The emails one call mentions. */
  function SettingEmails(s: Setting): seq<string>
  {
    match s
    case AddEmail(e) => [e]
    case AddEmails(es) => es
    case _ => []
  }

  /** The domains one call mentions. */
  function SettingDomains(s: Setting): seq<string>
  {
    match s
    case AddDomain(d) => [d]
    case AddDomains(ds) => ds
    case _ => []
  }

  /** The emails a script mentions, in the order it mentions them. */
  function EmailsOf(script: seq<Setting>): seq<string>
    decreases |script|
  {
    if |script| == 0 then [] else SettingEmails(script[0]) + EmailsOf(script[1..])
  }

  /** The domains a script mentions, in the order it mentions them. */
  function DomainsOf(script: seq<Setting>): seq<string>
    decreases |script|
  {
    if |script| == 0 then [] else SettingDomains(script[0]) + DomainsOf(script[1..])
  }

  /** The part of a builder configuration never touches. */
  function Fixed(b: Builder): (Layout, bool, Option<string>, Option<string>)
  {
    (b.layout, b.debug, b.accountKey, b.orderUri)
  }

  /** `r` is `b` with `emails` and `domains` added after those already
      collected, in order, and nothing else changed. */
  ghost predicate Extends(b: Builder, r: Builder, emails: seq<string>, domains: seq<string>)
  {
    r.accounts == b.accounts + emails && r.domains == b.domains + domains && Fixed(r) == Fixed(b)
  }

  lemma ApplyOne(b: Builder, s: Setting)
    ensures Extends(b, Apply(b, s), SettingEmails(s), SettingDomains(s))
  {
  }

  /** Configuration only appends: what was collected before stays in front,
      in order, followed by everything the script adds, in order; nothing else
      in the builder changes. */
  lemma {:induction false} ApplyAllAppends(b: Builder, script: seq<Setting>)
    ensures Extends(b, ApplyAll(b, script), EmailsOf(script), DomainsOf(script))
    decreases |script|
  {
    if |script| > 0 {
      var b' := Apply(b, script[0]);
      var rest := script[1..];
      ApplyOne(b, script[0]);
      ApplyAllAppends(b', rest);
      assert ApplyAll(b, script) == ApplyAll(b', rest);
      var e1, e2 := SettingEmails(script[0]), EmailsOf(rest);
      assert EmailsOf(script) == e1 + e2;
      assert b'.accounts + e2 == b.accounts + (e1 + e2);
      var d1, d2 := SettingDomains(script[0]), DomainsOf(rest);
      assert DomainsOf(script) == d1 + d2;
      assert b'.domains + d2 == b.domains + (d1 + d2);
    }
  }

  /** LoadAccount(): the key file must exist; its text becomes the account key. */
  function LoadAccount(b: Builder, disk: Disk): (r: Result<Builder>)
    ensures AccountKeyPath(b.layout) !in disk.files <==> r.Err?
    ensures r.Err? ==> r.error == FreeCertError(KeyNotFoundMessage(AccountKeyPath(b.layout)))
    ensures r.Ok? ==> r.value == b.(accountKey := Some(disk.files[AccountKeyPath(b.layout)]))
  {
    var path := AccountKeyPath(b.layout);
    if path !in disk.files then Err(FreeCertError(KeyNotFoundMessage(path)))
    else Ok(b.(accountKey := Some(disk.files[path])))
  }

  /** LoadOrder(): reads the order-uri file (a missing file throws) and parses
      it as a URI (`isUri` is the parser's acceptance test). */
  function LoadOrder(b: Builder, disk: Disk, isUri: string -> bool): (r: Result<Builder>)
    ensures r.Ok? <==> OrderUriPath(b.layout) in disk.files && isUri(disk.files[OrderUriPath(b.layout)])
    ensures OrderUriPath(b.layout) !in disk.files ==> r == Err(FileNotFound(OrderUriPath(b.layout)))
    ensures r.Ok? ==> r.value == b.(orderUri := Some(disk.files[OrderUriPath(b.layout)]))
  {
    var path := OrderUriPath(b.layout);
    if path !in disk.files then Err(FileNotFound(path))
    else if !isUri(disk.files[path]) then Err(UriFormat(disk.files[path]))
    else Ok(b.(orderUri := Some(disk.files[path])))
  }

  /** How NewAccount is called: one raw email, or a list of mailto: URIs. */
  datatype Contacts = SingleEmail(address: string) | MailtoList(uris: seq<string>)

  function ContactsOf(emails: seq<string>): (c: Contacts)
    requires |emails| >= 1
    ensures c.SingleEmail? <==> |emails| == 1
    ensures c.SingleEmail? ==> c.address == emails[0]
    ensures c.MailtoList? ==> |c.uris| == |emails|
    ensures c.MailtoList? ==> forall i :: 0 <= i < |emails| ==> c.uris[i] == MailtoScheme + emails[i]
  {
    if |emails| == 1 then SingleEmail(emails[0])
    else MailtoList(seq(|emails|, i requires 0 <= i < |emails| => MailtoScheme + emails[i]))
  }

  /** The emails a contact list names: the raw email, or each URI without its scheme. */
  function EmailsIn(c: Contacts): seq<string>
  {
    match c
    case SingleEmail(a) => [a]
    case MailtoList(us) =>
      seq(|us|, i requires 0 <= i < |us| =>
        if |us[i]| >= |MailtoScheme| && us[i][..|MailtoScheme|] == MailtoScheme then us[i][|MailtoScheme|..] else us[i])
  }

  /** Contact formatting loses nothing: the emails come back out, same order, same length. */
  lemma ContactsRoundTrip(emails: seq<string>)
    requires |emails| >= 1
    ensures EmailsIn(ContactsOf(emails)) == emails
  {
    var c := ContactsOf(emails);
    if c.MailtoList? {
      forall i | 0 <= i < |emails|
        ensures EmailsIn(c)[i] == emails[i]
      {
        assert c.uris[i] == MailtoScheme + emails[i];
        assert c.uris[i][..|MailtoScheme|] == MailtoScheme;
        assert c.uris[i][|MailtoScheme|..] == emails[i];
      }
    }
  }

  /** A side effect BuildAsync performs, in the order it performs them. */
  datatype Action =
    | NewAccount(contacts: Contacts, termsOfServiceAgreed: bool)   // register with the CA
    | WriteAccountKey                  // persist the new account's key
    | FetchAccount(key: string)        // fetch the account of a known key
    | NewOrder(domains: seq<string>)   // create an order
    | BindOrder(location: string)      // bind an existing order
    | WriteOrderUri                    // persist the order's location

  datatype Plan = Plan(server: Server, actions: seq<Action>)

  predicate HasAccountKey(b: Builder)
  {
    b.accountKey.Some? && b.accountKey.value != ""
  }

  predicate IsOrderAction(a: Action)
  {
    a.NewOrder? || a.BindOrder?
  }

  /** The order's location is written exactly once, as the last effect. */
  ghost predicate WritesOrderUriLast(acts: seq<Action>)
  {
    && |acts| > 0
    && acts[|acts| - 1] == WriteOrderUri
    && forall i :: 0 <= i < |acts| - 1 ==> acts[i] != WriteOrderUri
  }

  /** Exactly one action determines the order. */
  ghost predicate SingleOrderAction(acts: seq<Action>)
  {
    exists k :: 0 <= k < |acts| && IsOrderAction(acts[k]) &&
      forall j :: 0 <= j < |acts| && IsOrderAction(acts[j]) ==> j == k
  }

  /** Every write of the account key happens before every order creation. */
  ghost predicate KeyStoredBeforeOrder(acts: seq<Action>)
  {
    forall i, j :: 0 <= i < |acts| && 0 <= j < |acts| && acts[i] == WriteAccountKey && acts[j].NewOrder? ==> i < j
  }

  /** BuildAsync's decision logic. */
  function BuildPlan(b: Builder): (r: Result<Plan>)
    ensures r.Ok? ==> (r.value.server == Staging <==> b.debug)
    ensures r.Err? <==> !HasAccountKey(b) && (|b.domains| == 0 || |b.accounts| == 0)
    ensures r.Err? ==> r.error == FreeCertError(if |b.domains| == 0 then NoDomainMessage else NoEmailMessage)
  {
    var server := if b.debug then Staging else Production;
    if !HasAccountKey(b) then
      if |b.domains| == 0 then Err(FreeCertError(NoDomainMessage))
      else if |b.accounts| == 0 then Err(FreeCertError(NoEmailMessage))
      else Ok(Plan(server, [NewAccount(ContactsOf(b.accounts), true), WriteAccountKey, NewOrder(b.domains), WriteOrderUri]))
    else
      var order := if b.orderUri.Some? then BindOrder(b.orderUri.value) else NewOrder(b.domains);
      Ok(Plan(server, [FetchAccount(b.accountKey.value), order, WriteOrderUri]))
  }

  /** The plan registers a new account. */
  ghost predicate Registers(acts: seq<Action>)
  {
    exists a :: a in acts && a.NewAccount?
  }

  lemma NewAccountPlanShape(c: Contacts, ds: seq<string>)
    ensures var acts := [NewAccount(c, true), WriteAccountKey, NewOrder(ds), WriteOrderUri];
      WritesOrderUriLast(acts) && SingleOrderAction(acts) && KeyStoredBeforeOrder(acts) &&
      Registers(acts) && WriteAccountKey in acts
  {
    var acts := [NewAccount(c, true), WriteAccountKey, NewOrder(ds), WriteOrderUri];
    assert IsOrderAction(acts[2]);
    assert forall j :: 0 <= j < |acts| && IsOrderAction(acts[j]) ==> j == 2;
    assert acts[0] in acts;
  }

  lemma LoadedPlanShape(k: string, order: Action)
    requires IsOrderAction(order)
    ensures var acts := [FetchAccount(k), order, WriteOrderUri];
      WritesOrderUriLast(acts) && SingleOrderAction(acts) && KeyStoredBeforeOrder(acts) &&
      !Registers(acts) && WriteAccountKey !in acts
  {
    var acts := [FetchAccount(k), order, WriteOrderUri];
    assert IsOrderAction(acts[1]);
    assert forall j :: 0 <= j < |acts| && IsOrderAction(acts[j]) ==> j == 1;
    assert forall a :: a in acts ==> a == acts[0] || a == acts[1] || a == acts[2];
  }

  /** Effect ordering of every successful build. */
  lemma BuildPlanEffects(b: Builder)
    requires BuildPlan(b).Ok?
    ensures WritesOrderUriLast(BuildPlan(b).value.actions)
    ensures SingleOrderAction(BuildPlan(b).value.actions)
    ensures KeyStoredBeforeOrder(BuildPlan(b).value.actions)
    ensures Registers(BuildPlan(b).value.actions) <==> !HasAccountKey(b)
    ensures WriteAccountKey in BuildPlan(b).value.actions <==> !HasAccountKey(b)
  {
    if HasAccountKey(b) {
      LoadedPlanShape(b.accountKey.value, if b.orderUri.Some? then BindOrder(b.orderUri.value) else NewOrder(b.domains));
    } else {
      NewAccountPlanShape(ContactsOf(b.accounts), b.domains);
    }
  }

  /** Which path is taken, and with what arguments. */
  lemma BuildPlanPaths(b: Builder)
    requires BuildPlan(b).Ok?
    ensures !HasAccountKey(b) ==>
      |b.accounts| > 0 && BuildPlan(b).value.actions[0] == NewAccount(ContactsOf(b.accounts), true) &&
      NewOrder(b.domains) in BuildPlan(b).value.actions
    ensures HasAccountKey(b) ==> BuildPlan(b).value.actions[0] == FetchAccount(b.accountKey.value)
    ensures HasAccountKey(b) && b.orderUri.Some? ==>
      BindOrder(b.orderUri.value) in BuildPlan(b).value.actions && forall a :: a in BuildPlan(b).value.actions ==> !a.NewOrder?
    ensures HasAccountKey(b) && b.orderUri.None? ==> NewOrder(b.domains) in BuildPlan(b).value.actions
  {
    var acts := BuildPlan(b).value.actions;
    if HasAccountKey(b) {
      assert acts[1] in acts;
    } else {
      assert acts[2] in acts;
    }
  }

  /** What the CA hands out during a build: the key it generates for a new
      account and the location of an order it creates. */
  datatype Ca = Ca(generatedKey: string, newOrderLocation: string)

  /** The bound session: directory, account key and order location. */
  datatype Session = Session(server: Server, accountKey: string, orderLocation: string)

  function Perform(a: Action, ca: Ca, layout: Layout, s: Session, disk: Disk): (Session, Disk)
  {
    match a
    case NewAccount(_, _) => (s.(accountKey := ca.generatedKey), disk)
    case WriteAccountKey => (s, disk.(files := disk.files[AccountKeyPath(layout) := s.accountKey]))
    case FetchAccount(k) => (s.(accountKey := k), disk)
    case NewOrder(_) => (s.(orderLocation := ca.newOrderLocation), disk)
    case BindOrder(u) => (s.(orderLocation := u), disk)
    case WriteOrderUri => (s, disk.(files := disk.files[OrderUriPath(layout) := s.orderLocation]))
  }

  /** Running actions never switches the server, never creates or removes a
      directory, and writes no file other than the account key and the order
      location. */
  function PerformAll(acts: seq<Action>, ca: Ca, layout: Layout, s: Session, disk: Disk): (r: (Session, Disk))
    ensures r.0.server == s.server
    ensures r.1.dirs == disk.dirs
    ensures r.1.files.Keys <= disk.files.Keys + {AccountKeyPath(layout), OrderUriPath(layout)}
    ensures forall p :: p in disk.files && p != AccountKeyPath(layout) && p != OrderUriPath(layout) ==>
      p in r.1.files && r.1.files[p] == disk.files[p]
    decreases |acts|
  {
    if |acts| == 0 then (s, disk)
    else
      var (s', disk') := Perform(acts[0], ca, layout, s, disk);
      PerformAll(acts[1..], ca, layout, s', disk')
  }

  /** BuildAsync: the plan, carried out. */
  function Build(b: Builder, ca: Ca, disk: Disk): (r: (Result<Session>, Disk))
    ensures r.0.Ok? <==> BuildPlan(b).Ok?
    ensures r.0.Err? ==> r.0.error == BuildPlan(b).error && r.1 == disk
    ensures r.0.Ok? ==> r.0.value.server == (if b.debug then Staging else Production)
    ensures r.1.dirs == disk.dirs
    ensures r.1.files.Keys <= disk.files.Keys + {AccountKeyPath(b.layout), OrderUriPath(b.layout)}
    ensures forall p :: p in disk.files && p != AccountKeyPath(b.layout) && p != OrderUriPath(b.layout) ==>
      p in r.1.files && r.1.files[p] == disk.files[p]
  {
    match BuildPlan(b)
    case Err(e) => (Err(e), disk)
    case Ok(plan) =>
      var (s, disk') := PerformAll(plan.actions, ca, b.layout, Session(plan.server, "", ""), disk);
      (Ok(s), disk')
  }

  lemma PerformNewAccountPlan(c: Contacts, ds: seq<string>, ca: Ca, layout: Layout, s: Session, disk: Disk)
    ensures PerformAll([NewAccount(c, true), WriteAccountKey, NewOrder(ds), WriteOrderUri], ca, layout, s, disk) ==
      (s.(accountKey := ca.generatedKey, orderLocation := ca.newOrderLocation),
       disk.(files := disk.files[AccountKeyPath(layout) := ca.generatedKey][OrderUriPath(layout) := ca.newOrderLocation]))
  {
    var acts := [NewAccount(c, true), WriteAccountKey, NewOrder(ds), WriteOrderUri];
    var s1 := s.(accountKey := ca.generatedKey);
    var d2 := disk.(files := disk.files[AccountKeyPath(layout) := ca.generatedKey]);
    var s3 := s1.(orderLocation := ca.newOrderLocation);
    assert acts[1..] == [WriteAccountKey, NewOrder(ds), WriteOrderUri];
    assert PerformAll(acts, ca, layout, s, disk) == PerformAll(acts[1..], ca, layout, s1, disk);
    assert PerformAll(acts[1..], ca, layout, s1, disk) == PerformAll([NewOrder(ds), WriteOrderUri], ca, layout, s1, d2);
    assert PerformAll([NewOrder(ds), WriteOrderUri], ca, layout, s1, d2) == PerformAll([WriteOrderUri], ca, layout, s3, d2);
  }

  lemma PerformLoadedPlan(k: string, order: Action, ca: Ca, layout: Layout, s: Session, disk: Disk)
    requires IsOrderAction(order)
    ensures var loc := if order.BindOrder? then order.location else ca.newOrderLocation;
      PerformAll([FetchAccount(k), order, WriteOrderUri], ca, layout, s, disk) ==
      (s.(accountKey := k, orderLocation := loc), disk.(files := disk.files[OrderUriPath(layout) := loc]))
  {
    var acts := [FetchAccount(k), order, WriteOrderUri];
    var s1 := s.(accountKey := k);
    assert acts[1..] == [order, WriteOrderUri];
    assert PerformAll(acts, ca, layout, s, disk) == PerformAll([order, WriteOrderUri], ca, layout, s1, disk);
    var (s2, d2) := Perform(order, ca, layout, s1, disk);
    assert [order, WriteOrderUri][1..] == [WriteOrderUri];
    assert PerformAll([order, WriteOrderUri], ca, layout, s1, disk) == PerformAll([WriteOrderUri], ca, layout, s2, d2);
  }

  /** A failed build touches nothing; a new-account build persists the
      generated key and the new order's location and nothing else; a
      loaded-account build persists only the order's location. */
  lemma BuildPersists(b: Builder, ca: Ca, disk: Disk)
    ensures BuildPlan(b).Err? ==> Build(b, ca, disk) == (Err(BuildPlan(b).error), disk)
    ensures BuildPlan(b).Ok? && !HasAccountKey(b) ==>
      && Build(b, ca, disk).0 == Ok(Session(if b.debug then Staging else Production, ca.generatedKey, ca.newOrderLocation))
      && Build(b, ca, disk).1 == disk.(files := disk.files[AccountKeyPath(b.layout) := ca.generatedKey][OrderUriPath(b.layout) := ca.newOrderLocation])
    ensures BuildPlan(b).Ok? && HasAccountKey(b) ==>
      var loc := if b.orderUri.Some? then b.orderUri.value else ca.newOrderLocation;
      && Build(b, ca, disk).0 == Ok(Session(if b.debug then Staging else Production, b.accountKey.value, loc))
      && Build(b, ca, disk).1 == disk.(files := disk.files[OrderUriPath(b.layout) := loc])
  {
    if BuildPlan(b).Ok? {
      var plan := BuildPlan(b).value;
      var s0 := Session(plan.server, "", "");
      if HasAccountKey(b) {
        var order := if b.orderUri.Some? then BindOrder(b.orderUri.value) else NewOrder(b.domains);
        PerformLoadedPlan(b.accountKey.value, order, ca, b.layout, s0, disk);
      } else {
        PerformNewAccountPlan(ContactsOf(b.accounts), b.domains, ca, b.layout, s0, disk);
      }
    }
  }

  /** Resuming: a fresh builder that loads the key and order a new-account
      build persisted binds the same account key and the same order, and
      registers nothing new (the second CA is never consulted). */
  lemma ResumeRoundTrip(b: Builder, ca: Ca, ca2: Ca, disk: Disk, isUri: string -> bool)
    requires !HasAccountKey(b) && |b.domains| > 0 && |b.accounts| > 0
    requires ca.generatedKey != "" && isUri(ca.newOrderLocation)
    requires AccountKeyPath(b.layout) != OrderUriPath(b.layout)
    ensures var (first, disk1) := Build(b, ca, disk);
      var created := NewBuilder(true, b.layout, b.debug, disk1);
      && created.result.Ok?
      && LoadAccount(created.result.value, created.disk).Ok?
      && var withKey := LoadAccount(created.result.value, created.disk).value;
      && LoadOrder(withKey, created.disk, isUri).Ok?
      && var resumed := LoadOrder(withKey, created.disk, isUri).value;
      && BuildPlan(resumed) == Ok(Plan(first.value.server, [FetchAccount(ca.generatedKey), BindOrder(ca.newOrderLocation), WriteOrderUri]))
      && Build(resumed, ca2, created.disk).0 == first
  {
    BuildPersists(b, ca, disk);
    var (first, disk1) := Build(b, ca, disk);
    var created := NewBuilder(true, b.layout, b.debug, disk1);
    var withKey := LoadAccount(created.result.value, created.disk).value;
    var resumed := LoadOrder(withKey, created.disk, isUri).value;
    assert resumed.accountKey == Some(ca.generatedKey);
    assert resumed.orderUri == Some(ca.newOrderLocation);
    BuildPersists(resumed, ca2, created.disk);
  }
}
