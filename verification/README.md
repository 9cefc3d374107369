# Transport-configuration resolver of shapeshifter-dispatcher, in Dafny

This project models the part of the dispatcher's `transports` package that turns a
JSON description of candidate transports into one composite Optimizer client. An
Optimizer configuration is `{"transports": [...], "strategy": "..."}`. Every entry of
`transports` is `{"name": ..., "config": {...}}`. The entry's name selects one of four
providers: `shadow`, `Replicant`, `Starbridge` or `Optimizer`. The last one is the
composite itself, so configurations nest. The strategy name selects one of five
selection policies (`first`, `random`, `rotate`, `track`, `minimizeDialDuration`) over
the resolved dialers.

Files:

- `wrappers.dfy`: `Option` and `Result`.
- `json.dfy`: the decoded JSON tree. It also holds the text codec, supplied as a pair of
  functions, and the rules by which Go's `json.Unmarshal` fills `string` and
  `[]interface{}` struct fields from a tree.
- `transports.dfy` (module `Resolver`): the error values and the dialer and strategy
  values. It holds the external provider decoders (record `Externals`), the provider
  parsers, strategy selection and the mutually recursive resolution: `OptimizerFromTree`,
  `ResolvedFrom`, `ResolveEntry` and `ParsedTransport`. It also holds `ParseTransports`,
  the slice-filling loop, proved equal to the resolution function `ResolvedTransports`.
- `properties.dfy` (module `ResolverProperties`): lemmas about the resolver.

How the model is built:

- Provider libraries, strategy constructors and JSON text are external to the package.
  The dialers and strategies they build are symbolic values that record their inputs:
  `ShadowTransport`, `ReplicantTransport`, `StarbridgeTransport`,
  `OptimizerClient(transports, strategy)` and `Strategy(kind, transports)`. A provider
  decoder that rejects its input returns `None`.
- The proxy dialer is an opaque token, `ProxyDialer`.
- A nested `Optimizer` entry is resolved from its `config` subtree directly. The source
  marshals the subtree and parses the text again. `NestedOptimizerAgreesWithText` proves
  the two agree for an entry that reparses, and `EntriesReparse` with `RoundTrips` shows
  that every entry of a configuration that came from text reparses, at every depth.
  Resolving the subtree is what makes the recursion terminate: a nested config is a
  proper subtree of its entry. The source itself has no depth limit, and neither does
  the model.
- An entry's name is read from the entry's tree. The source marshals the entry and
  unmarshals the text into `{Name string}`; for an entry that reparses the two agree.
- `Message` gives the text each error carries in the source. It is a lookup table: no
  contract depends on it, because the resolver never inspects an error's text.
- Leaf providers receive the marshalled text of their config, as in the source.
- Behaviour of the code that the model keeps as it is:
  - An empty transport list resolves to an empty list, and a composite over it is built
    when the strategy name is valid.
  - The config shape is checked before the provider name. So an unknown name with a
    missing or non-object config reports the config error, not "unsupported transport
    name".
  - Errors are the plain messages of the code. They carry no provider, entry or
    strategy name.

## Model

| member | source | states |
|---|---|---|
| `Resolver.Transports` | transports/transports.go:46-49 | The registry holds four names with no duplicate. |
| `ResolverProperties.UnsupportedNameIffUnregistered` | transports/transports.go:341-367 | Take an entry whose name decodes and whose config is an object. It fails with "unsupported transport name" exactly when the name is not in `Transports()`. So the registry and the dispatch agree in both directions. |
| `ResolverProperties.AbsentNameIsUnsupported` | transports/transports.go:309-320 | When the entry's config is an object, a missing name is read as "" and is refused as an unsupported transport name. |
| `Resolver.StrategyName` | transports/transports.go:266-279 | Every strategy kind is registered under one of the five names of the switch. `StrategyNamesRoundTrip` shows each name selects its own kind. |
| `Resolver.ParseStrategy` | transports/transports.go:265-284 | On success, the strategy is the kind registered under the given name, over the unchanged dialer list. On failure, the error is "invalid strategy" and no kind has that name. |
| `ResolverProperties.StrategyNamesRoundTrip` | transports/transports.go:266-279 | Every strategy kind is built from its own name over the unchanged list. No two kinds share a name. |
| `Resolver.ResolvedTransports` | transports/transports.go:286-304 | A list resolves to one dialer per entry, or fails with "unsupported type for transport" or "transport could not parse config". `ResolvedIsPointwise`, `FirstFailureAborts` and `ResolvedFailsIffSomeEntryFails` characterise it. |
| `Resolver.ResolvedFrom` | transports/transports.go:288-302 | The suffix from index `i` resolves to one dialer per remaining entry, or fails with one of the two list errors. `ResolvedFromIsPointwise` and `FirstFailureAbortsFrom` characterise it. |
| `ResolverProperties.EntryRewrapsParse` | transports/transports.go:289-300 | A list entry that is not an object gives "unsupported type for transport". An object entry succeeds exactly when its parse does, with the parsed dialer, and a parse failure becomes "transport could not parse config". This is the contract of `Resolver.ResolveEntry`. |
| `Resolver.ParsedTransport` | transports/transports.go:306-369 | A dialer comes only from an entry whose name decodes to a registered name and whose config is an object. A failure is one of the eight errors of the entry parser. `ShapeChecksPrecedeDispatch`, `DispatchByName`, `UnsupportedNameIffUnregistered` and `NestedOptimizerAgreesWithText` characterise it. |
| `Resolver.ParseTransports` | transports/transports.go:286-304 | The slice-filling loop returns exactly what `ResolvedTransports` specifies. On success it returns one dialer per entry. |
| `ResolverProperties.ResolvedIsPointwise` | transports/transports.go:287-303 | A list resolves to `ds` exactly when `ds` has the list's length and element `k` is what entry `k` resolves to. Input order is kept, and the empty list gives the empty list. |
| `ResolverProperties.ResolvedFromIsPointwise` | transports/transports.go:288-302 | The same characterisation for a suffix of the list, proved by induction. |
| `ResolverProperties.FirstFailureAborts` | transports/transports.go:288-300 | The first failing entry in index order aborts the whole list with no dialers. A non-object entry gives "unsupported type for transport". An object entry whose parse fails gives "transport could not parse config". |
| `ResolverProperties.FirstFailureAbortsFrom` | transports/transports.go:288-300 | The same for a suffix: the entries before the first failure do not change the outcome. |
| `ResolverProperties.ResolvedFailsIffSomeEntryFails` | transports/transports.go:286-304 | Resolution fails exactly when some entry fails, so it is all-or-nothing. |
| `ResolverProperties.FirstFailing` | transports/transports.go:288-300 | If some entry fails, there is a least failing index, and every entry before it succeeds. |
| `ResolverProperties.ParentIrrelevant` | transports/transports.go:286-304 | The termination bound carried by the resolution does not change what a list resolves to. |
| `ResolverProperties.ShapeChecksPrecedeDispatch` | transports/transports.go:312-334 | Checks run in a fixed order, whatever the name. A name that is neither a string nor null gives "error unmarshalling optimizer otc". Then a missing config gives "missing config in transport parser". Then a non-object config (null included) gives "unsupported type for optimizer config option". |
| `ResolverProperties.DispatchByName` | transports/transports.go:336-365 | Each registered name passes the entry's config to its own provider. The provider's dialer is returned unchanged. The provider's failure is replaced by "could not parse shadow/replicant/starbridge/Optimizer Args". A nested Optimizer is resolved from the config subtree. |
| `ResolverProperties.TransportsBeforeStrategy` | transports/transports.go:249-262 | A transport failure gives "could not parse transports", whatever the strategy name. A bad strategy name gives "could not parse strategy" only after every transport resolved. A client is built exactly when both steps succeed. It wraps exactly the resolved list and a strategy of the named kind over that same list. |
| `ResolverProperties.UndecodableConfigIsRefused` | transports/transports.go:245-248 | A configuration that does not decode into `{transports, strategy}` is refused with "could not marshal optimizer config" before anything is resolved. |
| `Resolver.OptimizerFromTree` | transports/transports.go:245-262 | A failure is "could not marshal optimizer config" exactly when the tree does not decode, and otherwise "could not parse transports" or "could not parse strategy". A client holds one dialer per listed entry and a strategy registered under the configured name over that same list. `TransportsBeforeStrategy` and `UndecodableConfigIsRefused` characterise it. |
| `Resolver.ParseArgsOptimizer` | transports/transports.go:240-248 | Text that does not unmarshal is refused with "could not marshal optimizer config". Otherwise the result is the client that the decoded tree describes. |
| `ResolverProperties.NestedOptimizerAgreesWithText` | transports/transports.go:336-365 | For an `Optimizer` entry with an object config whose tree reparses, the model's dispatch equals the source's: `ParseArgsOptimizer` on the config's marshalled text, with its failure replaced by "could not parse Optimizer Args". |
| `ResolverProperties.EntriesReparse` | transports/transports.go:229-232 | Every entry of the `transports` array of a configuration tree that reparses reparses too. With `RoundTrips`, this holds of every entry of a configuration that was unmarshalled from text. |
| `Resolver.DecodeOptimizerConfig` | transports/transports.go:229-232 | Decoding succeeds exactly for `null` or an object whose `transports` member is absent, null or an array and whose `strategy` member is absent, null or a string. `null` decodes to an empty list and strategy "". For an object, the transport list is the `transports` member's decoded value and the strategy is the `strategy` member's decoded value. |
| `Json.StringMember` | transports/transports.go:309-320 | Decoding a `string` field succeeds exactly when the member is absent, null or a string. The value is the string, or "" for an absent or null member. |
| `Json.ArrayMember` | transports/transports.go:229-232 | Decoding a `[]interface{}` field succeeds exactly when the member is absent, null or an array. The value is the array's items, or the empty list for an absent or null member. |
| `Resolver.ParseArgsShadow` | transports/transports.go:51-61 | It succeeds exactly when the shadow options decode. The transport is built from the decoded password, cipher name and address. Failure gives "shadow options json decoding error". |
| `Resolver.ParseArgsReplicantClient` | transports/transports.go:148-173 | Empty options are refused with "must specify transport options when using replicant". Options that do not unmarshal give "could not unmarshal Replicant args"; an encoded config the library rejects gives "could not parse config". It succeeds exactly when both decoding steps succeed, and the client then carries the decoded config, dials to that config's address and dials through the given proxy dialer. |
| `ResolverProperties.ReplicantEntryArgsNeverEmpty` | transports/transports.go:336-353 | For an entry with an object config whose tree reparses, the options marshalled from that config are never refused as empty. |
| `Resolver.ParseArgsStarbridgeClient` | transports/transports.go:201-215 | It succeeds exactly when the Starbridge options decode. The client carries the decoded config and its address and dials through the given proxy dialer. Failure gives "starbridge options json decoding error". |
| `Resolver.ParseArgsReplicantServer` | transports/transports.go:176-199 | Empty options give the default server configuration. Text that does not unmarshal, or does not decode into `{Config string}`, gives "could not unmarshal Replicant args". Otherwise the decoded `Config` string goes to the Replicant library: its configuration is returned and its error is passed on unchanged. |
| `Resolver.ConfigMember` | transports/transports.go:179-191 | Decoding into `{Config string}` succeeds exactly for `null` or an object whose `Config` member is absent, null or a string. The value is that string, or "" otherwise. |
| `Resolver.CreateDefaultReplicantServer` | transports/transports.go:75-82 | The default server configuration has neither a toneburst nor a polish layer. |
| `ResolverProperties.OptimizerDialsThrough` | transports/transports.go:348-365 | In a resolved client, every Replicant and Starbridge dialer dials through the outer proxy dialer, at every level of nesting. Every composite's strategy ranges over that composite's own list. |
| `ResolverProperties.ResolvedDialThrough` | transports/transports.go:286-304 | Every dialer that a transport list resolves to passes the outer proxy dialer on. |
| `ResolverProperties.EntryDialsThrough` | transports/transports.go:288-297 | The dialer that one list entry resolves to passes the outer proxy dialer on. |
| `ResolverProperties.ParsedDialsThrough` | transports/transports.go:341-365 | The dialer that one `{name, config}` entry resolves to passes the outer proxy dialer on. |

## Left out

- `CreateReplicantConfigs` (transports/transports.go:84-146): it generates keys in the polish library and writes two files, which is foreign cryptography and file I/O.
- `ParseArgsShadowServer` and `ParseArgsStarbridgeServer`: each only decodes JSON into a provider struct and has no logic of its own.
- Byte-level JSON: `json.Marshal` and `json.Unmarshal` into `interface{}` are the `Codec` pair of functions, and no resolver function assumes anything of them. The lemmas that relate the model's tree-based dispatch to the source's re-marshalling assume `RoundTrips`: empty text is not JSON, every unmarshalled tree reparses, and so does every member and element of a tree that reparses. `RoundTripsCanHold` shows a codec can meet it.
- Decoding into the provider libraries' own structs is supplied through `Externals`, with each decoder's failure as `None`. This covers `shadow.ClientConfig`, `replicant.ClientJSONConfig`, `replicant.DecodeClientConfig`, `replicant.DecodeServerConfig` and `Starbridge.ClientConfig`. So are the constructors behind them: `shadow.NewTransport`, `Optimizer.NewOptimizerClient` and the strategy constructors. Their results are symbolic values.
- Go's case-insensitive matching of JSON member names against struct fields: members are looked up by exact name (`name`, `transports`, `strategy`, `Config`).
- The marshal failures "error marshalling optimizer otc" and "could not marshal Optimizer config" (transports/transports.go:312-315, 336-339): marshal is total in the model. A tree that `json.Unmarshal` produced always marshals again.
- What the strategies do when dialing (round-robin, randomness, success tracking, latency measurement), `Dial` itself, and the locking around strategy state. All of it lives in the Optimizer library and involves timing, randomness and concurrency.
- The low-level proxy dialer is an opaque token. No connection is modelled.
- The debug `println` at transports/transports.go:251.
- JSON numbers are reals; those `encoding/json` produces are float64 values, and `RoundTrips` constrains the codec only on the trees it produces. The resolver never inspects numbers.
- The toneburst and polish parts of Replicant configurations are an optional JSON tree each. Only whether they are present matters here.
