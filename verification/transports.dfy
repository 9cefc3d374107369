/**
 * The transport-configuration resolver: it turns a generic JSON tree into a composite
 * Optimizer client over an ordered list of transport dialers, chosen among by a named
 * strategy. Provider constructors, strategy constructors and the JSON codec are
 * external; the resolver's own dispatch, ordering and error choices are modelled here.
 */
module Resolver {
  import opened Wrappers
  import opened Json

  /** The errors the resolver and its parsers return, one per message in the source. */
  datatype Error =
    | InvalidStrategy
    | UnsupportedTransportType
    | TransportConfigUnparsable
    | OtcUnmarshal
    | MissingConfig
    | UnsupportedConfigType
    | ShadowArgsUnparsable
    | ReplicantArgsUnparsable
    | StarbridgeArgsUnparsable
    | OptimizerArgsUnparsable
    | UnsupportedTransportName
    | OptimizerConfigUnmarshal
    | TransportsUnparsable
    | StrategyUnparsable
    | ShadowOptionsDecoding
    | ReplicantOptionsMissing
    | ReplicantArgsUnmarshal
    | ReplicantConfigUnparsable
    | ReplicantServerConfigRejected(cause: string)
    | StarbridgeOptionsDecoding

  /** The text each error carries. */
  function Message(e: Error): string
  {
    match e
    case InvalidStrategy => "invalid strategy"
    case UnsupportedTransportType => "unsupported type for transport"
    case TransportConfigUnparsable => "transport could not parse config"
    case OtcUnmarshal => "error unmarshalling optimizer otc"
    case MissingConfig => "missing config in transport parser"
    case UnsupportedConfigType => "unsupported type for optimizer config option"
    case ShadowArgsUnparsable => "could not parse shadow Args"
    case ReplicantArgsUnparsable => "could not parse replicant Args"
    case StarbridgeArgsUnparsable => "could not parse starbridge Args"
    case OptimizerArgsUnparsable => "could not parse Optimizer Args"
    case UnsupportedTransportName => "unsupported transport name"
    case OptimizerConfigUnmarshal => "could not marshal optimizer config"
    case TransportsUnparsable => "could not parse transports"
    case StrategyUnparsable => "could not parse strategy"
    case ShadowOptionsDecoding => "shadow options json decoding error"
    case ReplicantOptionsMissing => "must specify transport options when using replicant"
    case ReplicantArgsUnmarshal => "could not unmarshal Replicant args"
    case ReplicantConfigUnparsable => "could not parse config"
    case ReplicantServerConfigRejected(cause) => cause
    case StarbridgeOptionsDecoding => "starbridge options json decoding error"
  }

  /** The low-level proxy dialer handed to the resolver: an opaque token. */
  datatype ProxyDialer = ProxyDialer(id: nat)

  /** Decoded provider settings; their inner structure belongs to the provider libraries. */
  datatype ShadowClientConfig = ShadowClientConfig(password: string, cipherName: string, address: string)
  datatype ReplicantClientConfig = ReplicantClientConfig(toneburst: Option<JSON>, polish: Option<JSON>, address: string)
  datatype ReplicantServerConfig = ReplicantServerConfig(toneburst: Option<JSON>, polish: Option<JSON>)
  datatype StarbridgeClientConfig = StarbridgeClientConfig(address: string, settings: JSON)

  datatype StrategyKind = First | Random | Rotate | Track | MinimizeDialDuration

  /**
   * A dialer the Optimizer can choose among. A composite client is itself a dialer,
   * so composites nest.
   */
  datatype TransportDialer =
    | ShadowTransport(password: string, cipherName: string, address: string)
    | ReplicantTransport(replicant: ReplicantClientConfig, address: string, dialer: ProxyDialer)
    | StarbridgeTransport(starbridge: StarbridgeClientConfig, address: string, dialer: ProxyDialer)
    | OptimizerClient(transports: seq<TransportDialer>, strategy: Strategy)

  /** A selection policy built over an ordered dialer list. */
  datatype Strategy = Strategy(kind: StrategyKind, transports: seq<TransportDialer>)

  /**
   * Everything the resolver calls but does not define: the JSON codec and the
   * provider libraries' decoders, each failing with None (or a cause).
   */
  datatype Externals = Externals(
    codec: Codec,
    shadowClient: string -> Option<ShadowClientConfig>,
    replicantClientJson: string -> Option<string>,
    replicantClientDecode: string -> Option<ReplicantClientConfig>,
    replicantServerDecode: string -> Result<ReplicantServerConfig, string>,
    starbridgeClient: string -> Option<StarbridgeClientConfig>)

  /** The decoded shape of an Optimizer configuration: `{transports: [...], strategy: "..."}`. */
  datatype OptimizerConfig = OptimizerConfig(transports: seq<JSON>, strategy: string)

  /** The registered transport protocols, in registry order. */
  function Transports(): (names: seq<string>)
    ensures |names| == 4
    ensures forall i, j :: 0 <= i < j < |names| ==> names[i] != names[j]
  {
    ["shadow", "Replicant", "Starbridge", "Optimizer"]
  }

  /** The name under which each strategy is registered. */
  function StrategyName(kind: StrategyKind): (name: string)
    ensures name in {"first", "random", "rotate", "track", "minimizeDialDuration"}
  {
    match kind
    case First => "first"
    case Random => "random"
    case Rotate => "rotate"
    case Track => "track"
    case MinimizeDialDuration => "minimizeDialDuration"
  }

  /** Builds the strategy registered under `name` over the given dialers. */
  function ParseStrategy(name: string, transports: seq<TransportDialer>): (r: Result<Strategy, Error>)
    ensures r.Success? ==> StrategyName(r.value.kind) == name && r.value.transports == transports
    ensures r.Failure? ==> r.error == InvalidStrategy && forall k :: StrategyName(k) != name
  {
    match name
    case "first" => Success(Strategy(First, transports))
    case "random" => Success(Strategy(Random, transports))
    case "rotate" => Success(Strategy(Rotate, transports))
    case "track" => Success(Strategy(Track, transports))
    case "minimizeDialDuration" => Success(Strategy(MinimizeDialDuration, transports))
    case _ => Failure(InvalidStrategy)
  }

  /** The Replicant server configuration with neither a toneburst nor a polish layer. */
  function CreateDefaultReplicantServer(): (config: ReplicantServerConfig)
    ensures config.toneburst == None && config.polish == None
  {
    ReplicantServerConfig(None, None)
  }

  /** Shadow client from its JSON options; the proxy dialer is not used. */
  function ParseArgsShadow(args: string, ext: Externals): (r: Result<TransportDialer, Error>)
    ensures r.Success? <==> ext.shadowClient(args).Some?
    ensures r.Failure? ==> r.error == ShadowOptionsDecoding
    ensures r.Success? ==> r.value == ShadowTransport(ext.shadowClient(args).value.password,
                                                      ext.shadowClient(args).value.cipherName,
                                                      ext.shadowClient(args).value.address)
  {
    match ext.shadowClient(args)
    case None => Failure(ShadowOptionsDecoding)
    case Some(config) => Success(ShadowTransport(config.password, config.cipherName, config.address))
  }

  /**
   * Replicant client from its JSON options: empty options are refused before any
   * decoding; the client dials through the given proxy dialer to the decoded address.
   */
  function ParseArgsReplicantClient(args: string, dialer: ProxyDialer, ext: Externals): (r: Result<TransportDialer, Error>)
    ensures args == "" ==> r == Failure(ReplicantOptionsMissing)
    ensures args != "" && ext.replicantClientJson(args).None? ==> r == Failure(ReplicantArgsUnmarshal)
    ensures args != "" && ext.replicantClientJson(args).Some?
            && ext.replicantClientDecode(ext.replicantClientJson(args).value).None?
            ==> r == Failure(ReplicantConfigUnparsable)
    ensures r.Success? <==> args != "" && ext.replicantClientJson(args).Some?
                            && ext.replicantClientDecode(ext.replicantClientJson(args).value).Some?
    ensures r.Success? ==> r.value.ReplicantTransport? && r.value.dialer == dialer
                           && r.value.replicant == ext.replicantClientDecode(ext.replicantClientJson(args).value).value
                           && r.value.address == r.value.replicant.address
  {
    if args == "" then Failure(ReplicantOptionsMissing)
    else match ext.replicantClientJson(args)
      case None => Failure(ReplicantArgsUnmarshal)
      case Some(encoded) =>
        match ext.replicantClientDecode(encoded)
        case None => Failure(ReplicantConfigUnparsable)
        case Some(config) => Success(ReplicantTransport(config, config.address, dialer))
  }

  /**
   * Replicant server configuration from its JSON options: empty options give the
   * default server; otherwise the `Config` member is decoded by the provider library,
   * whose own error is passed on unchanged.
   */
  function ParseArgsReplicantServer(args: string, ext: Externals): (r: Result<ReplicantServerConfig, Error>)
    ensures args == "" ==> r == Success(CreateDefaultReplicantServer())
    ensures args != "" && ext.codec.unmarshal(args).None? ==> r == Failure(ReplicantArgsUnmarshal)
    ensures args != "" && r.Failure? ==> r.error == ReplicantArgsUnmarshal || r.error.ReplicantServerConfigRejected?
    ensures args != "" && r.Success? ==> exists encoded :: ext.replicantServerDecode(encoded) == Success(r.value)
    ensures args != "" && ext.codec.unmarshal(args).Some? && ConfigMember(ext.codec.unmarshal(args).value).None?
            ==> r == Failure(ReplicantArgsUnmarshal)
    ensures args != "" && ext.codec.unmarshal(args).Some? && ConfigMember(ext.codec.unmarshal(args).value).Some?
            ==> var decoded := ext.replicantServerDecode(ConfigMember(ext.codec.unmarshal(args).value).value);
                && (r.Success? <==> decoded.Success?)
                && (r.Success? ==> r.value == decoded.value)
                && (r.Failure? ==> r.error == ReplicantServerConfigRejected(decoded.error))
  {
    if args == "" then Success(CreateDefaultReplicantServer())
    else match ext.codec.unmarshal(args)
      case None => Failure(ReplicantArgsUnmarshal)
      case Some(tree) =>
        match ConfigMember(tree)
        case None => Failure(ReplicantArgsUnmarshal)
        case Some(encoded) =>
          match ext.replicantServerDecode(encoded)
          case Failure(cause) => Failure(ReplicantServerConfigRejected(cause))
          case Success(config) => Success(config)
  }

  /** Decoding a tree into the struct `{Config string}`. */
  function ConfigMember(tree: JSON): (r: Option<string>)
    ensures r.Some? <==> tree.JNull? || (tree.JObj? && StringMember(tree.fields, "Config").Some?)
    ensures r.Some? ==> r.value == (if tree.JObj? && "Config" in tree.fields && tree.fields["Config"].JStr?
                                    then tree.fields["Config"].s else "")
  {
    match tree
    case JNull => Some("")
    case JObj(fields) => StringMember(fields, "Config")
    case _ => None
  }

  /** Starbridge client from its JSON options; it dials through the given proxy dialer. */
  function ParseArgsStarbridgeClient(args: string, dialer: ProxyDialer, ext: Externals): (r: Result<TransportDialer, Error>)
    ensures r.Success? <==> ext.starbridgeClient(args).Some?
    ensures r.Failure? ==> r.error == StarbridgeOptionsDecoding
    ensures r.Success? ==> r.value.StarbridgeTransport? && r.value.dialer == dialer
                           && r.value.starbridge == ext.starbridgeClient(args).value
                           && r.value.address == r.value.starbridge.address
  {
    match ext.starbridgeClient(args)
    case None => Failure(StarbridgeOptionsDecoding)
    case Some(config) => Success(StarbridgeTransport(config, config.address, dialer))
  }

  /**
   * Decoding a tree into `OptimizerConfig`: `null` leaves both fields zero; an object
   * supplies `transports` (an array) and `strategy` (a string).
   */
  function DecodeOptimizerConfig(tree: JSON): (r: Option<OptimizerConfig>)
    ensures r.Some? <==> tree.JNull? || (tree.JObj? && ArrayMember(tree.fields, "transports").Some?
                                                   && StringMember(tree.fields, "strategy").Some?)
    ensures tree.JNull? ==> r == Some(OptimizerConfig([], ""))
    ensures r.Some? && tree.JObj? ==> r.value.transports == ArrayMember(tree.fields, "transports").value
                                      && r.value.strategy == StringMember(tree.fields, "strategy").value
    ensures r.Some? ==> r.value.transports == [] || (tree.JObj? && "transports" in tree.fields
                                                    && tree.fields["transports"] == JArr(r.value.transports))
    ensures r.Some? ==> Lists(r.value.transports, tree)
  {
    match tree
    case JNull => Some(OptimizerConfig([], ""))
    case JObj(fields) =>
      (match (ArrayMember(fields, "transports"), StringMember(fields, "strategy"))
       case (Some(transports), Some(strategy)) => Some(OptimizerConfig(transports, strategy))
       case _ => None)
    case _ => None
  }

  /** `entries` is empty or is the array that `parent` is or holds under `transports`. */
  ghost predicate Lists(entries: seq<JSON>, parent: JSON)
  {
    || entries == []
    || parent == JArr(entries)
    || (parent.JObj? && "transports" in parent.fields && parent.fields["transports"] == JArr(entries))
  }

  /** The Optimizer client described by JSON text. */
  function ParseArgsOptimizer(jsonConfig: string, dialer: ProxyDialer, ext: Externals): (r: Result<TransportDialer, Error>)
    ensures ext.codec.unmarshal(jsonConfig).None? ==> r == Failure(OptimizerConfigUnmarshal)
    ensures ext.codec.unmarshal(jsonConfig).Some? ==> r == OptimizerFromTree(ext.codec.unmarshal(jsonConfig).value, dialer, ext)
  {
    match ext.codec.unmarshal(jsonConfig)
    case None => Failure(OptimizerConfigUnmarshal)
    case Some(tree) => OptimizerFromTree(tree, dialer, ext)
  }

  /**
   * The Optimizer client described by a decoded tree: transports are resolved first,
   * then the strategy is built over them.
   */
  function OptimizerFromTree(tree: JSON, dialer: ProxyDialer, ext: Externals): (r: Result<TransportDialer, Error>)
    ensures r.Failure? ==> r.error in {OptimizerConfigUnmarshal, TransportsUnparsable, StrategyUnparsable}
    ensures r.Failure? ==> (r.error == OptimizerConfigUnmarshal <==> DecodeOptimizerConfig(tree).None?)
    ensures r.Success? ==> && DecodeOptimizerConfig(tree).Some?
                           && r.value.OptimizerClient?
                           && |r.value.transports| == |DecodeOptimizerConfig(tree).value.transports|
                           && r.value.strategy.transports == r.value.transports
                           && StrategyName(r.value.strategy.kind) == DecodeOptimizerConfig(tree).value.strategy
    decreases tree, 3
  {
    match DecodeOptimizerConfig(tree)
    case None => Failure(OptimizerConfigUnmarshal)
    case Some(config) =>
      match ResolvedFrom(config.transports, 0, dialer, ext, tree)
      case Failure(_) => Failure(TransportsUnparsable)
      case Success(transports) =>
        match ParseStrategy(config.strategy, transports)
        case Failure(_) => Failure(StrategyUnparsable)
        case Success(strategy) => Success(OptimizerClient(transports, strategy))
  }

  /** The resolution of a whole transport list: all entries' dialers, in order, or the first failure. */
  function ResolvedTransports(otcs: seq<JSON>, dialer: ProxyDialer, ext: Externals): (r: Result<seq<TransportDialer>, Error>)
    ensures r.Success? ==> |r.value| == |otcs|
    ensures r.Failure? ==> r.error == UnsupportedTransportType || r.error == TransportConfigUnparsable
  {
    ResolvedFrom(otcs, 0, dialer, ext, JArr(otcs))
  }

  /** The resolution of `otcs[i..]`; `parent` only bounds the recursion. */
  function ResolvedFrom(otcs: seq<JSON>, i: nat, dialer: ProxyDialer, ext: Externals, ghost parent: JSON): (r: Result<seq<TransportDialer>, Error>)
    requires i <= |otcs|
    requires Lists(otcs, parent)
    ensures r.Success? ==> |r.value| == |otcs| - i
    ensures r.Failure? ==> r.error == UnsupportedTransportType || r.error == TransportConfigUnparsable
    decreases parent, 2, |otcs| - i
  {
    if i == |otcs| then Success([])
    else
      match ResolveEntry(otcs[i], dialer, ext)
      case Failure(e) => Failure(e)
      case Success(transport) =>
        match ResolvedFrom(otcs, i + 1, dialer, ext, parent)
        case Failure(e) => Failure(e)
        case Success(rest) => Success([transport] + rest)
  }

  /** One transport list entry: it must be an object, and its parse failure is reported generically. */
  function ResolveEntry(entry: JSON, dialer: ProxyDialer, ext: Externals): Result<TransportDialer, Error>
    decreases entry, 1
  {
    match entry
    case JObj(otc) =>
      (match ParsedTransport(otc, dialer, ext)
       case Failure(_) => Failure(TransportConfigUnparsable)
       case Success(transport) => Success(transport))
    case _ => Failure(UnsupportedTransportType)
  }

  /** Replaces a failure by the caller's own error. */
  function Rewrap(r: Result<TransportDialer, Error>, e: Error): Result<TransportDialer, Error>
  {
    match r
    case Failure(_) => Failure(e)
    case Success(transport) => Success(transport)
  }

  /**
   * One transport entry `{name, config}`: the name is decoded, then `config` must be
   * present and an object, and only then is the name dispatched to a provider.
   */
  function ParsedTransport(otc: map<string, JSON>, dialer: ProxyDialer, ext: Externals): (r: Result<TransportDialer, Error>)
    ensures r.Success? ==> && StringMember(otc, "name").Some? && StringMember(otc, "name").value in Transports()
                           && "config" in otc && otc["config"].JObj?
    ensures r.Failure? ==> r.error in {OtcUnmarshal, MissingConfig, UnsupportedConfigType, ShadowArgsUnparsable,
                                       ReplicantArgsUnparsable, StarbridgeArgsUnparsable, OptimizerArgsUnparsable,
                                       UnsupportedTransportName}
    decreases JObj(otc), 0
  {
    match StringMember(otc, "name")
    case None => Failure(OtcUnmarshal)
    case Some(name) =>
      if "config" !in otc then Failure(MissingConfig)
      else match otc["config"]
        case JObj(config) =>
          var args := ext.codec.marshal(JObj(config));
          (match name
           case "shadow" => Rewrap(ParseArgsShadow(args, ext), ShadowArgsUnparsable)
           case "Replicant" => Rewrap(ParseArgsReplicantClient(args, dialer, ext), ReplicantArgsUnparsable)
           case "Starbridge" => Rewrap(ParseArgsStarbridgeClient(args, dialer, ext), StarbridgeArgsUnparsable)
           case "Optimizer" => Rewrap(OptimizerFromTree(JObj(config), dialer, ext), OptimizerArgsUnparsable)
           case _ => Failure(UnsupportedTransportName))
        case _ => Failure(UnsupportedConfigType)
  }

  /** `done` followed by what `rest` resolved, or `rest`'s failure. */
  function Prefixed(done: seq<TransportDialer>, rest: Result<seq<TransportDialer>, Error>): Result<seq<TransportDialer>, Error>
  {
    match rest
    case Failure(e) => Failure(e)
    case Success(transports) => Success(done + transports)
  }

  /**
   * Resolves the entries into a slice of the same length, filled index by index,
   * returning at the first entry that is not an object or does not parse.
   */
  method ParseTransports(otcs: seq<JSON>, dialer: ProxyDialer, ext: Externals) returns (r: Result<seq<TransportDialer>, Error>)
    ensures r == ResolvedTransports(otcs, dialer, ext)
    ensures r.Success? ==> |r.value| == |otcs|
  {
    var transports := new TransportDialer[|otcs|];
    ghost var parent := JArr(otcs);
    PrefixedNothing(ResolvedFrom(otcs, 0, dialer, ext, parent));
    for index := 0 to |otcs|
      invariant ResolvedTransports(otcs, dialer, ext) == Prefixed(transports[..index], ResolvedFrom(otcs, index, dialer, ext, parent))
    {
      ghost var rest := ResolvedFrom(otcs, index + 1, dialer, ext, parent);
      match otcs[index]
      case JObj(otc) =>
        var transport := ParsedTransport(otc, dialer, ext);
        if transport.Failure? {
          assert ResolvedFrom(otcs, index, dialer, ext, parent) == Failure(TransportConfigUnparsable);
          return Failure(TransportConfigUnparsable);
        }
        assert ResolvedFrom(otcs, index, dialer, ext, parent) == Prefixed([transport.value], rest);
        PrefixedTwice(transports[..index], transport.value, rest);
        transports[index] := transport.value;
        assert transports[..index + 1] == transports[..index] + [transport.value];
      case _ =>
        assert ResolvedFrom(otcs, index, dialer, ext, parent) == Failure(UnsupportedTransportType);
        return Failure(UnsupportedTransportType);
    }
    assert transports[..] == transports[..|otcs|] + [];
    return Success(transports[..]);
  }

  /** Prefixing nothing changes nothing. */
  lemma PrefixedNothing(rest: Result<seq<TransportDialer>, Error>)
    ensures Prefixed([], rest) == rest
  {
    if rest.Success? {
      assert [] + rest.value == rest.value;
    }
  }

  /** Prefixing in two steps is prefixing with the concatenation. */
  lemma PrefixedTwice(done: seq<TransportDialer>, transport: TransportDialer, rest: Result<seq<TransportDialer>, Error>)
    ensures Prefixed(done, Prefixed([transport], rest)) == Prefixed(done + [transport], rest)
  {
    if rest.Success? {
      assert done + ([transport] + rest.value) == (done + [transport]) + rest.value;
    }
  }
}
