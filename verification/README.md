# FreeCert core, modelled in Dafny

FreeCert obtains Let's Encrypt certificates through ACME DNS-01 challenges. This
project models its two core classes and proves properties of that model:

- `FreeCertBuilder` configures a session. It has the terms-of-service gate in
  the constructor and collects emails and domains in order. `LoadAccount` and
  `LoadOrder` read persisted state. `BuildAsync` chooses between a new account
  and a loaded one, formats the contacts, and fixes the order of the CA calls
  and file writes.
- `FreeCertContext` runs a session:
  - the memoized top domain;
  - the DNS-01 authorization records;
  - the DNS proof check;
  - the delete-then-add loop against a dynamic DNS provider;
  - challenge validation;
  - the certificate request's names;
  - the file paths used by finalization and export.

The model is functional:

- A builder is an immutable datatype.
- `BuildPlan` turns a builder into either an error or a `Plan`, an ordered list of
  abstract actions: `NewAccount`, `WriteAccountKey`, `FetchAccount`, `NewOrder`,
  `BindOrder` and `WriteOrderUri`.
- `Build` carries the plan out against an abstract CA (`Ca`: the key it generates,
  the location of the order it creates) and a disk (a map from path to text).
- Every context operation is a pure function from the session to a `Step`. A step
  holds three things: what the C# method returns or throws (`Result`), the session
  afterwards (only the cached top domain can change), and the ordered trace of
  remote calls and file accesses made (`seq<Call>`).
- The class invariant `Valid` says that a cached top domain is the one the order
  determines. `Replay` applies the file writes of a trace to a file map, so
  finalization and export can be composed.

Modules, one per concern:

| module | file | what it holds |
|---|---|---|
| `Failures` | failures.dfy | `Error` (one constructor per exception the core throws), `Option`, `Result` |
| `Sequences` | sequences.dfy | `Count`, `IsSubsequence`, `Without` (LINQ `Where(a => a != x)`) |
| `DomainNames` | domain_names.dfy | `Split`/`Join` on dots, `TopDomainOf` and its characterisation |
| `Storage` | storage.dfy | the file-name suffixes of `FreeCertConsts`, the work-directory layout, artifact paths |
| `FreeCertBuilder` | builder.dfy | the builder, `BuildPlan`, the plan interpreter `Build` |
| `FreeCertContext` | context.dfy | the session, its operations and their traces |

The collaborators the core calls are parameters of the model:

- the ACME client (Certes) is the CA's answers plus the trace;
- `DnsTxt` of the account key is `dnsTxt: (string, string) -> string`;
- the DNS resolver is `dns: string -> seq<string>`;
- the dynamic DNS provider is `Provider(add)`;
- the PFX builder is `pfx`;
- `new Uri(...)` acceptance is `isUri`;
- the request key PEM is `csrKey`.

Behaviour of the code that a reader might not expect, modelled as written:

- The request key is stored at `<workDir>/<top>-.key.pem`: the code
  interpolates `{topDomain}-{CertPemPrivateKeyName}` and that constant is
  `".key.pem"`. The chain is likewise at `<top>-.chain.pem`. The archive and
  password files have no dash: `<top>.pfx` and `<top>.pfx.pass`.
- The emptiness check on the domains is made only on the new-account path. On
  the loaded-account path with no order location, `BuildAsync` creates an order
  from whatever domains were collected, possibly none, and `BuildPlan` does the
  same.
- The TXT lookup has no error handling of its own, so a resolver failure is not
  caught anywhere in the core; the resolver is a total function in the model.
- Neither finalization nor export checks the order's state. If the download
  succeeds and no key is stored, export writes the chain and then fails with
  `FileNotFound` for the key path (`ExportNeedsKey`).
- The session's work directory is the builder's: both classes read the one
  constant `FreeCertConsts.WorkDir`, and `NewContext` takes the builder's
  `Layout`.

## Model

| member | source | states |
|---|---|---|
| FreeCertBuilder.NewBuilder | src/FreeCert.Core/FreeCertBuilder.cs:29-43 | without ToS acceptance the constructor throws the ToS message and the disk is untouched; with it the builder is empty (no emails, domains, key or order) and only the work directory is added |
| FreeCertBuilder.AddNewAccount | src/FreeCert.Core/FreeCertBuilder.cs:55-59 | the builder afterwards is the one before with the email added after those already collected, and nothing else changed (`Extends`); chains of calls are covered by ApplyAllAppends |
| FreeCertBuilder.AddNewAccounts | src/FreeCert.Core/FreeCertBuilder.cs:66-70 | the emails are added, in order, after those already collected, and nothing else changes (`Extends`) |
| FreeCertBuilder.SetDomain | src/FreeCert.Core/FreeCertBuilder.cs:105-109 | the domain is added after those already collected, and nothing else changes (`Extends`) |
| FreeCertBuilder.SetDomains | src/FreeCert.Core/FreeCertBuilder.cs:116-120 | the domains are added, in order, after those already collected, and nothing else changes (`Extends`) |
| FreeCertBuilder.ApplyAllAppends | src/FreeCert.Core/FreeCertBuilder.cs:55-120 | any chain of AddNewAccount/SetDomain(s) calls only appends: the emails and domains already collected stay in front, followed by everything the chain adds, in order; the debug flag, layout, key and order location do not change |
| FreeCertBuilder.LoadAccount | src/FreeCert.Core/FreeCertBuilder.cs:78-87 | fails exactly when the account key file is missing, with the message naming that path; otherwise only the account key changes, to the file's text |
| FreeCertBuilder.LoadOrder | src/FreeCert.Core/FreeCertBuilder.cs:93-98 | succeeds exactly when the order-uri file exists and its text parses as a URI; a missing file is FileNotFound for that path; on success only the order location changes |
| FreeCertBuilder.ContactsOf | src/FreeCert.Core/FreeCertBuilder.cs:146-154 | one email is passed raw; two or more become the same number of `mailto:` URIs, element i being `mailto:` + email i |
| FreeCertBuilder.ContactsRoundTrip | src/FreeCert.Core/FreeCertBuilder.cs:146-154 | stripping the scheme from the contacts gives back the collected emails, same order and length |
| FreeCertBuilder.BuildPlan | src/FreeCert.Core/FreeCertBuilder.cs:128-184 | the server is staging iff debug; the build fails iff there is no account key and no domain or no email; the domain check wins when both are missing |
| FreeCertBuilder.BuildPlanEffects | src/FreeCert.Core/FreeCertBuilder.cs:155-187 | every successful plan writes the order location exactly once, as its last effect; it has exactly one action that fixes the order; the account key is written before any order is created; an account is registered and its key written iff no key was loaded |
| FreeCertBuilder.BuildPlanPaths | src/FreeCert.Core/FreeCertBuilder.cs:132-183 | the new-account path starts by registering the formatted contacts with the terms of service agreed (`NewAccount(contacts, true)`) and creates an order for the collected domains; the loaded path starts by fetching the account of the key; a loaded order location is bound and no order is created; otherwise an order for the domains is created |
| FreeCertBuilder.Build | src/FreeCert.Core/FreeCertBuilder.cs:122-190 | the build succeeds iff its plan does; a failure carries the plan's error and leaves the disk as it was; the server is staging iff debug; no directory is created or removed and no file other than the account key and the order location changes. What is written is stated by BuildPersists |
| FreeCertBuilder.BuildPersists | src/FreeCert.Core/FreeCertBuilder.cs:157-187 | a failed build leaves the disk as it was; a new-account build ends bound to the generated key and the new order and writes exactly those two files; a loaded build writes only the order location, which is the loaded one when there was one |
| FreeCertBuilder.ResumeRoundTrip | src/FreeCert.Core/FreeCertBuilder.cs:166-187 | after a new-account build, a new builder that loads the key and the order finds both files, plans fetch-account, bind-order and write-order-uri, and binds the same session without asking the CA for anything new |
| Sequences.Without | src/FreeCert.Core/FreeCertContext.cs:144 | the filtered list never holds the removed value, keeps every other value with its multiplicity and relative order (a subsequence), and is shorter by the number of removed copies |
| DomainNames.Split | src/FreeCert.Core/FreeCertContext.cs:182 | splitting on '.' gives one more label than there are dots |
| DomainNames.SplitLabelsDotFree | src/FreeCert.Core/FreeCertContext.cs:182 | no label of a split holds a dot |
| DomainNames.JoinSplit | src/FreeCert.Core/FreeCertContext.cs:182 | joining the labels with dots gives the name back |
| DomainNames.SplitJoin | src/FreeCert.Core/FreeCertContext.cs:182 | splitting a dot-joined list of dot-free labels gives the labels back |
| DomainNames.TopDomainOf | src/FreeCert.Core/FreeCertContext.cs:180-183 | defined iff there is a first identifier and it holds a dot; an empty list fails as `First()` does and a dot-free name fails with an index error |
| DomainNames.LastTwo | src/FreeCert.Core/FreeCertContext.cs:183 | defined iff there are at least two labels, otherwise an index error |
| DomainNames.TopDomainIsLastTwoLabels | src/FreeCert.Core/FreeCertContext.cs:182-183 | the top domain holds exactly one dot and is a suffix of the first identifier that starts at a label boundary |
| DomainNames.TopDomainUnique | src/FreeCert.Core/FreeCertContext.cs:182-183 | at most one suffix has that property, so it pins the top domain down |
| DomainNames.TopDomainOfJoin | src/FreeCert.Core/FreeCertContext.cs:182-183 | a name built from two or more dot-free labels has its last two labels as top domain |
| DomainNames.TopDomainDropsSubdomain | src/FreeCert.Core/FreeCertContext.cs:182-183 | `sub.name.tld` and `name.tld` have the same top domain `name.tld` (`www.example.com` and `example.com` give `example.com`) |
| Storage.ArtifactPathsDistinct | src/FreeCert.Core/FreeCertContext.cs:150-170 | the key, chain, archive and password paths are `<dir>/<top>-.key.pem`, `<dir>/<top>-.chain.pem`, `<dir>/<top>.pfx` and `<dir>/<top>.pfx.pass`, and are pairwise distinct |
| FreeCertContext.NewContext | src/FreeCert.Core/FreeCertContext.cs:27-32 | a newly bound session has no cached top domain, satisfies the class invariant, keeps the given key and order, and works in the builder layout's work directory |
| FreeCertContext.GetOrderInfo | src/FreeCert.Core/FreeCertContext.cs:34-44 | one read of the order and nothing else; the session is unchanged; the result lists the order's identifiers in order and its status |
| FreeCertContext.GetTopDomain | src/FreeCert.Core/FreeCertContext.cs:176-188 | with a cache it returns the cached value with no call; without one it fetches the order once and derives the top domain; on success the cache is set to the non-empty result; a failure leaves the session unchanged; the invariant is kept |
| FreeCertContext.TopDomainMemoized | src/FreeCert.Core/FreeCertContext.cs:174-188 | after one successful call, the next returns the same value from the cache with no call; the order is fetched once if nothing was cached and not at all otherwise |
| FreeCertContext.CollectFromResult | src/FreeCert.Core/FreeCertContext.cs:62-77 | the authorization loop from entry i fails only on an undefined top domain; otherwise it extends the entries built so far to one per authorization, each the expected record |
| FreeCertContext.CollectFromOrderFetches | src/FreeCert.Core/FreeCertContext.cs:62-77 | the authorization loop fetches the order once when the cache is empty and an authorization remains, and never otherwise |
| FreeCertContext.GetAuthorizations | src/FreeCert.Core/FreeCertContext.cs:59-79 | only the cache of the session can change, the class invariant is kept, and a session with a cached top domain comes back unchanged. The entries are stated by GetAuthorizationsResult, the calls by GetAuthorizationsCalls |
| FreeCertContext.GetAuthorizationsResult | src/FreeCert.Core/FreeCertContext.cs:59-79 | one entry per authorization, in order: record `_acme-challenge.<top>`, type TXT, value the digest of the account key and that authorization's token, and its status; fails iff there is an authorization and the top domain is undefined |
| FreeCertContext.GetAuthorizationsCalls | src/FreeCert.Core/FreeCertContext.cs:59-79 | it fetches the authorizations first and only reads from the CA; it fetches the order at most once, and not at all when the top domain is cached or there are no authorizations |
| FreeCertContext.GetDnsTxtRecords | src/FreeCert.Core/FreeCertContext.cs:103-108 | only the cache can change, the class invariant is kept, and a cached session comes back unchanged. The result and the query are stated by GetDnsTxtRecordsSpec |
| FreeCertContext.GetDnsTxtRecordsSpec | src/FreeCert.Core/FreeCertContext.cs:103-108 | the lookup succeeds iff the order has a top domain; then it returns exactly the resolver's TXT strings for `_acme-challenge.<top>`, and its trace is the top-domain lookup followed by one TXT query of that name; otherwise it fails with the top-domain error and queries nothing |
| FreeCertContext.CheckDnsTxtRecord | src/FreeCert.Core/FreeCertContext.cs:110-123 | only the cache can change, the class invariant is kept, and a cached session comes back unchanged. The answer is stated by CheckDnsTxtRecordSpec |
| FreeCertContext.AllPresent | src/FreeCert.Core/FreeCertContext.cs:115-122 | true iff every entry's value is among the observed strings |
| FreeCertContext.CheckDnsTxtRecordSpec | src/FreeCert.Core/FreeCertContext.cs:103-123 | the check fails iff the top domain is undefined; otherwise it is true iff the digest of every authorization is among the TXT strings resolved for `_acme-challenge.<top>`, and true for an order without authorizations |
| FreeCertContext.CheckDnsTxtRecordMonotone | src/FreeCert.Core/FreeCertContext.cs:110-123 | extra observed strings never turn a passing check into a failing one |
| FreeCertContext.AddRecords | src/FreeCert.Core/FreeCertContext.cs:91-98 | the loop adds, in order, a prefix of the values as TXT records under `_acme-challenge` of the top domain |
| FreeCertContext.AddRecordsOutcome | src/FreeCert.Core/FreeCertContext.cs:91-100 | every add but the last one made was accepted; success iff all values were added and accepted, with no message; a failure ends at the first rejected add and carries that add's message |
| FreeCertContext.AutoCreateDnsRecord | src/FreeCert.Core/FreeCertContext.cs:81-101 | only the cache can change, the class invariant is kept, and a cached session comes back unchanged. The null check, the error path and the delete-then-add trace are stated by the four AutoCreateDnsRecord lemmas below |
| FreeCertContext.AutoCreateDnsRecordNull | src/FreeCert.Core/FreeCertContext.cs:83-86 | a null provider throws ArgumentNullException("ddns") with no call made and the session unchanged |
| FreeCertContext.AutoCreateDnsRecordErr | src/FreeCert.Core/FreeCertContext.cs:87-90 | with a provider the call fails iff the top domain is undefined; then it fails with that error and the provider is never touched |
| FreeCertContext.AutoCreateDnsRecordCalls | src/FreeCert.Core/FreeCertContext.cs:87-98 | with a defined top domain the result is the add loop's outcome over the expected digests, and the provider sees one delete of the shared record followed by exactly the loop's adds, after reads only |
| FreeCertContext.AutoCreateDnsRecordSpec | src/FreeCert.Core/FreeCertContext.cs:87-100 | on success the trace is reads, one delete, then adds of the first k expected digests in order, where k and the outcome meet the loop's promise: stop at the first rejection with its message, success iff all accepted |
| FreeCertContext.Authorize | src/FreeCert.Core/FreeCertContext.cs:125-132 | always succeeds, leaves the session as it was, and starts by fetching the authorizations. The per-authorization calls are stated by AuthorizeSpec |
| FreeCertContext.ValidateFromShape | src/FreeCert.Core/FreeCertContext.cs:127-131 | from authorization i on, the loop makes two calls per authorization: fetch its DNS challenge, then validate it |
| FreeCertContext.AuthorizeSpec | src/FreeCert.Core/FreeCertContext.cs:125-132 | after fetching the authorizations, each authorization i gets its challenge fetched and then validated exactly once, in order; the session is unchanged |
| FreeCertContext.AuthorizeNoPolling | src/FreeCert.Core/FreeCertContext.cs:125-132 | validation reads back no order and no challenge status |
| FreeCertContext.OrderFinalize | src/FreeCert.Core/FreeCertContext.cs:134-152 | only the cache can change, the class invariant is kept, and a cached session comes back unchanged. The request and the key write are stated by OrderFinalizeSpec |
| FreeCertContext.OrderFinalizeSpec | src/FreeCert.Core/FreeCertContext.cs:134-152 | finalize fails iff the top domain is undefined, and then it has only read from the CA; otherwise it reads only, then submits a request whose common name is the top domain and whose alternative names are the order's identifiers in order with every copy of the top domain dropped, then writes the request key to `<dir>/<top>-.key.pem` as its last effect |
| FreeCertContext.CsrNamesMatchOrderIff | src/FreeCert.Core/FreeCertContext.cs:141-144 | the common name plus the alternative names cover exactly the order's identifiers iff the top domain is one of them |
| FreeCertContext.FinalizeWritesKey | src/FreeCert.Core/FreeCertContext.cs:134-152 | a successful finalize caches the top domain and changes the files only by storing the request key at the key path |
| FreeCertContext.ExportCert | src/FreeCert.Core/FreeCertContext.cs:154-171 | only the cache can change, the class invariant is kept, and a cached session comes back unchanged. The writes and the missing-key failure are stated by ExportWithKey and ExportNeedsKey |
| FreeCertContext.ExportNeedsKey | src/FreeCert.Core/FreeCertContext.cs:154-164 | once the download has returned, export with no stored key fails with FileNotFound for the key path, having written only the chain |
| FreeCertContext.ExportWithKey | src/FreeCert.Core/FreeCertContext.cs:154-171 | for any valid session whose order has a top domain, cached or not (such as one freshly bound in a later run), with the key on disk: export succeeds and caches the top domain; its trace is the top-domain lookup, then download, chain write, key read, the write of the archive built from the chain and that key under the top domain and password, then the password write; the files change only at those three paths |
| FreeCertContext.FinalizeThenExport | src/FreeCert.Core/FreeCertContext.cs:150-170 | after finalize, export reads the key from the path finalize wrote it to, does not fetch the order again, builds the archive from the downloaded chain and that key, and leaves the key in place |

## Left out

- `GetTosUriAsync`: a single network call to the CA directory. It holds no decision logic.
- `GetAccountAsync`: a field-by-field copy of the remote account resource.
- `GetOrderInfoAsync`: modelled as `GetOrderInfo` with the identifiers and status only. The `Expires` local-time conversion is left out because it is clock- and time-zone-dependent.
- `GetDnsTxtRecordAsync`: modelled as `GetDnsTxtRecords`; its result and query are stated by `GetDnsTxtRecordsSpec`. The resolver is an oracle from name to TXT strings. The TXT lookup itself is network I/O.
- Status values are opaque strings. Enum-to-string rendering belongs to the ACME library.
- Logging and async/await are left out. They have no effect on the decisions modelled.
- Certes and network failures are left out: transport errors, ACME problem documents, and `KeyFactory.FromPem` parse errors of a loaded or stored key. They are foreign calls, and FreeCert's code does not handle or show their failure modes.
- The certificate request's constant subject fields (`C=Country, ST=State, L=City, O=Org`) are left out. Only the common name and the alternative names are modelled.
- Key generation, CSR and PFX encoding, and the `DnsTxt` digest are parameters or abstract results. They are cryptography inside the ACME library.
- The dynamic DNS provider is a pure function of its arguments, and its delete reply is not inspected, as in the source. Provider state across calls is not modelled.
- `WriteAllBytes` for the archive is not distinguished from `WriteAllText`. Files are a map from path to text.
- `FreeCertConsts.WorkDir`, `AccountKeyName` and `OrderUriName`: the code uses them (FreeCertBuilder.cs lines 39, 80, 95, 158 and 187), but their values are not given; FreeCertConsts.cs defines only the four artifact suffixes (lines 5-8). So they are the fields of `Layout`. The session's work directory is taken from the same `Layout` by `NewContext`.
- `Uri.ToString()` canonicalisation of a loaded or created order location is left out. The location is stored as given.
- `Download` failing on an order that is not finalized: the download always returns the given chain, so an export before finalization is modelled only from the point where the download has succeeded. The CA's refusal depends on the CA's own state, and FreeCert's code does not handle or show it.
- Re-fetching from the CA: the CA's answers (identifiers, authorizations, tokens, challenge statuses) are one snapshot, `Context.order`. The code fetches them again on every call, so for example statuses read after `Authorize` may differ from those read before. No property here depends on a status changing.
- Null inputs: `AddNewAccount(string[])` and `SetDomains` throw ArgumentNullException on a null array (`AddRange`, FreeCertBuilder.cs lines 68 and 118), and a null email or domain element is stored as given; the model's sequences and strings cannot be null. An authorization without a dns-01 challenge makes `Dns()` return null and FreeCertContext.cs line 65 throw; every `Challenge` in the model is a DNS challenge, so that case is not represented.
- A null cache and an empty one are a single state. The top-domain cache is the string field `topDomain`, with "" meaning not computed, as `string.IsNullOrEmpty` treats it.
