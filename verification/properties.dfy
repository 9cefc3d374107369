/**
 * What the resolver guarantees: the registry and the dispatch agree, strategy names
 * round-trip, transport lists resolve in order and all-or-nothing, entry shapes are
 * checked before names, composites resolve transports before strategies, and the
 * outer proxy dialer reaches every provider that dials.
 */
module ResolverProperties {
  import opened Wrappers
  import opened Json
  import opened Resolver

  // ---------------------------------------------------------------------------------
  // Strategies

  /** Every strategy kind is built from its own name, over the unchanged list, and no two kinds share a name. */
  lemma StrategyNamesRoundTrip(kind: StrategyKind, other: StrategyKind, transports: seq<TransportDialer>)
    ensures ParseStrategy(StrategyName(kind), transports) == Success(Strategy(kind, transports))
    ensures kind != other ==> StrategyName(kind) != StrategyName(other)
  {
  }

  // ---------------------------------------------------------------------------------
  // Registry and dispatch

  /**
   * Once an entry's name decodes and its config is an object, it is refused as an
   * unsupported transport name exactly when the name is not registered.
   */
  lemma UnsupportedNameIffUnregistered(otc: map<string, JSON>, dialer: ProxyDialer, ext: Externals)
    requires StringMember(otc, "name").Some?
    requires "config" in otc && otc["config"].JObj?
    ensures ParsedTransport(otc, dialer, ext) == Failure(UnsupportedTransportName)
            <==> StringMember(otc, "name").value !in Transports()
  {
  }

  /** An entry without a name is read as the name "", which no provider is registered under. */
  lemma AbsentNameIsUnsupported(otc: map<string, JSON>, dialer: ProxyDialer, ext: Externals)
    requires "name" !in otc
    requires "config" in otc && otc["config"].JObj?
    ensures ParsedTransport(otc, dialer, ext) == Failure(UnsupportedTransportName)
  {
    UnsupportedNameIffUnregistered(otc, dialer, ext);
  }

  /**
   * The shape of an entry is checked in a fixed order before its name is looked at:
   * a name that is neither a string nor null, then a missing config, then a config
   * that is not an object.
   */
  lemma ShapeChecksPrecedeDispatch(otc: map<string, JSON>, dialer: ProxyDialer, ext: Externals)
    ensures "name" in otc && !otc["name"].JStr? && !otc["name"].JNull?
            ==> ParsedTransport(otc, dialer, ext) == Failure(OtcUnmarshal)
    ensures StringMember(otc, "name").Some? && "config" !in otc
            ==> ParsedTransport(otc, dialer, ext) == Failure(MissingConfig)
    ensures StringMember(otc, "name").Some? && "config" in otc && !otc["config"].JObj?
            ==> ParsedTransport(otc, dialer, ext) == Failure(UnsupportedConfigType)
  {
  }

  /**
   * Each registered name hands the entry's config to its own provider; the provider's
   * dialer is returned as it is and its failure is replaced by a provider-specific
   * error. The nested Optimizer is resolved from the config subtree itself.
   */
  lemma DispatchByName(otc: map<string, JSON>, config: map<string, JSON>, dialer: ProxyDialer, ext: Externals)
    requires StringMember(otc, "name").Some?
    requires "config" in otc && otc["config"] == JObj(config)
    ensures var name, args, r := StringMember(otc, "name").value, ext.codec.marshal(JObj(config)), ParsedTransport(otc, dialer, ext);
      && (name == "shadow" ==> ProvidedAs(r, ParseArgsShadow(args, ext), ShadowArgsUnparsable))
      && (name == "Replicant" ==> ProvidedAs(r, ParseArgsReplicantClient(args, dialer, ext), ReplicantArgsUnparsable))
      && (name == "Starbridge" ==> ProvidedAs(r, ParseArgsStarbridgeClient(args, dialer, ext), StarbridgeArgsUnparsable))
      && (name == "Optimizer" ==> ProvidedAs(r, OptimizerFromTree(JObj(config), dialer, ext), OptimizerArgsUnparsable))
  {
  }

  /** `r` succeeds exactly when `provided` does, with the same dialer, and fails with `e`. */
  ghost predicate ProvidedAs(r: Result<TransportDialer, Error>, provided: Result<TransportDialer, Error>, e: Error)
  {
    && (r.Success? <==> provided.Success?)
    && (r.Success? ==> r.value == provided.value)
    && (r.Failure? ==> r.error == e)
  }

  // ---------------------------------------------------------------------------------
  // Transport lists

  /** The bound that only serves termination does not change what a list resolves to. */
  lemma {:induction false} ParentIrrelevant(otcs: seq<JSON>, i: nat, dialer: ProxyDialer, ext: Externals, p: JSON, q: JSON)
    requires i <= |otcs| && Lists(otcs, p) && Lists(otcs, q)
    ensures ResolvedFrom(otcs, i, dialer, ext, p) == ResolvedFrom(otcs, i, dialer, ext, q)
    decreases |otcs| - i
  {
    if i < |otcs| {
      ParentIrrelevant(otcs, i + 1, dialer, ext, p, q);
    }
  }

  /** `otcs[i..]` resolves to `ds` exactly when `ds` holds, in order, each entry's own dialer. */
  lemma {:induction false} ResolvedFromIsPointwise(otcs: seq<JSON>, i: nat, dialer: ProxyDialer, ext: Externals, parent: JSON, ds: seq<TransportDialer>)
    requires i <= |otcs| && Lists(otcs, parent)
    ensures ResolvedFrom(otcs, i, dialer, ext, parent) == Success(ds)
            <==> |ds| == |otcs| - i && forall k :: 0 <= k < |ds| ==> ResolveEntry(otcs[i + k], dialer, ext) == Success(ds[k])
    decreases |otcs| - i
  {
    if ResolvedFrom(otcs, i, dialer, ext, parent) == Success(ds) {
      ResolvedFromListsEntries(otcs, i, dialer, ext, parent, ds);
    }
    if |ds| == |otcs| - i && forall k :: 0 <= k < |ds| ==> ResolveEntry(otcs[i + k], dialer, ext) == Success(ds[k]) {
      EntriesMakeResolvedFrom(otcs, i, dialer, ext, parent, ds);
    }
  }

  /** What `otcs[i..]` resolves to holds, in order, each entry's own dialer. */
  lemma {:induction false} ResolvedFromListsEntries(otcs: seq<JSON>, i: nat, dialer: ProxyDialer, ext: Externals, parent: JSON, ds: seq<TransportDialer>)
    requires i <= |otcs| && Lists(otcs, parent)
    requires ResolvedFrom(otcs, i, dialer, ext, parent) == Success(ds)
    ensures |ds| == |otcs| - i && forall k :: 0 <= k < |ds| ==> ResolveEntry(otcs[i + k], dialer, ext) == Success(ds[k])
    decreases |otcs| - i
  {
    if i < |otcs| {
      ResolvedFromStep(otcs, i, dialer, ext, parent);
      var rest := ResolvedFrom(otcs, i + 1, dialer, ext, parent).value;
      assert ds == [ds[0]] + rest;
      ResolvedFromListsEntries(otcs, i + 1, dialer, ext, parent, rest);
      forall k | 0 <= k < |ds|
        ensures ResolveEntry(otcs[i + k], dialer, ext) == Success(ds[k])
      {
        if k > 0 {
          assert ResolveEntry(otcs[i + 1 + (k - 1)], dialer, ext) == Success(rest[k - 1]);
        }
      }
    }
  }

  /** Entries that resolve one by one to `ds` make `otcs[i..]` resolve to `ds`. */
  lemma {:induction false} EntriesMakeResolvedFrom(otcs: seq<JSON>, i: nat, dialer: ProxyDialer, ext: Externals, parent: JSON, ds: seq<TransportDialer>)
    requires i <= |otcs| && Lists(otcs, parent)
    requires |ds| == |otcs| - i && forall k :: 0 <= k < |ds| ==> ResolveEntry(otcs[i + k], dialer, ext) == Success(ds[k])
    ensures ResolvedFrom(otcs, i, dialer, ext, parent) == Success(ds)
    decreases |otcs| - i
  {
    if i < |otcs| {
      ResolvedFromStep(otcs, i, dialer, ext, parent);
      assert ResolveEntry(otcs[i + 0], dialer, ext) == Success(ds[0]);
      forall k | 0 <= k < |ds[1..]|
        ensures ResolveEntry(otcs[i + 1 + k], dialer, ext) == Success(ds[1..][k])
      {
        assert ResolveEntry(otcs[i + (k + 1)], dialer, ext) == Success(ds[k + 1]);
      }
      EntriesMakeResolvedFrom(otcs, i + 1, dialer, ext, parent, ds[1..]);
      assert ds == [ds[0]] + ds[1..];
    }
  }

  /** One step of list resolution: the head entry's failure, or its dialer before the rest. */
  lemma ResolvedFromStep(otcs: seq<JSON>, i: nat, dialer: ProxyDialer, ext: Externals, parent: JSON)
    requires i < |otcs| && Lists(otcs, parent)
    ensures var head := ResolveEntry(otcs[i], dialer, ext);
      ResolvedFrom(otcs, i, dialer, ext, parent)
      == if head.Failure? then Failure(head.error) else Prefixed([head.value], ResolvedFrom(otcs, i + 1, dialer, ext, parent))
  {
  }

  /**
   * One list entry: anything but an object is refused as an unsupported type, and an
   * object resolves to exactly what its parse gives, any parse failure reported as
   * "transport could not parse config".
   */
  lemma EntryRewrapsParse(entry: JSON, dialer: ProxyDialer, ext: Externals)
    ensures !entry.JObj? ==> ResolveEntry(entry, dialer, ext) == Failure(UnsupportedTransportType)
    ensures entry.JObj? ==> ProvidedAs(ResolveEntry(entry, dialer, ext), ParsedTransport(entry.fields, dialer, ext), TransportConfigUnparsable)
  {
  }

  /**
   * A transport list resolves to `ds` exactly when `ds` has one dialer per entry, and
   * dialer `k` is what entry `k` resolves to: the output keeps the input order. In
   * particular the empty list resolves to the empty list.
   */
  lemma ResolvedIsPointwise(otcs: seq<JSON>, dialer: ProxyDialer, ext: Externals, ds: seq<TransportDialer>)
    ensures ResolvedTransports(otcs, dialer, ext) == Success(ds)
            <==> |ds| == |otcs| && forall k :: 0 <= k < |otcs| ==> ResolveEntry(otcs[k], dialer, ext) == Success(ds[k])
  {
    ResolvedFromIsPointwise(otcs, 0, dialer, ext, JArr(otcs), ds);
  }

  /** If entries `i..k-1` resolve and entry `k` does not, `otcs[i..]` fails with entry `k`'s error. */
  lemma {:induction false} FirstFailureAbortsFrom(otcs: seq<JSON>, i: nat, k: nat, dialer: ProxyDialer, ext: Externals, parent: JSON)
    requires i <= k < |otcs| && Lists(otcs, parent)
    requires ResolveEntry(otcs[k], dialer, ext).Failure?
    requires forall j :: i <= j < k ==> ResolveEntry(otcs[j], dialer, ext).Success?
    ensures ResolvedFrom(otcs, i, dialer, ext, parent) == Failure(ResolveEntry(otcs[k], dialer, ext).error)
    decreases k - i
  {
    if i < k {
      FirstFailureAbortsFrom(otcs, i + 1, k, dialer, ext, parent);
    }
  }

  /**
   * The first entry in index order that is not an object, or whose parse fails, aborts
   * the whole list with no dialers, whatever the later entries hold.
   */
  lemma FirstFailureAborts(otcs: seq<JSON>, k: nat, dialer: ProxyDialer, ext: Externals)
    requires k < |otcs|
    requires ResolveEntry(otcs[k], dialer, ext).Failure?
    requires forall j :: 0 <= j < k ==> ResolveEntry(otcs[j], dialer, ext).Success?
    ensures ResolvedTransports(otcs, dialer, ext)
            == Failure(if otcs[k].JObj? then TransportConfigUnparsable else UnsupportedTransportType)
  {
    FirstFailureAbortsFrom(otcs, 0, k, dialer, ext, JArr(otcs));
  }

  /** A transport list fails exactly when one of its entries fails. */
  lemma ResolvedFailsIffSomeEntryFails(otcs: seq<JSON>, dialer: ProxyDialer, ext: Externals)
    ensures ResolvedTransports(otcs, dialer, ext).Failure?
            <==> exists k :: 0 <= k < |otcs| && ResolveEntry(otcs[k], dialer, ext).Failure?
  {
    if exists k :: 0 <= k < |otcs| && ResolveEntry(otcs[k], dialer, ext).Failure? {
      var k := FirstFailing(otcs, dialer, ext);
      FirstFailureAborts(otcs, k, dialer, ext);
    } else {
      var ds := seq(|otcs|, k requires 0 <= k < |otcs| => ResolveEntry(otcs[k], dialer, ext).value);
      ResolvedIsPointwise(otcs, dialer, ext, ds);
    }
  }

  /** The least index of a failing entry. */
  lemma FirstFailing(otcs: seq<JSON>, dialer: ProxyDialer, ext: Externals) returns (k: nat)
    requires exists k :: 0 <= k < |otcs| && ResolveEntry(otcs[k], dialer, ext).Failure?
    ensures k < |otcs| && ResolveEntry(otcs[k], dialer, ext).Failure?
    ensures forall j :: 0 <= j < k ==> ResolveEntry(otcs[j], dialer, ext).Success?
  {
    k := 0;
    while ResolveEntry(otcs[k], dialer, ext).Success?
      invariant k < |otcs|
      invariant forall j :: 0 <= j < k ==> ResolveEntry(otcs[j], dialer, ext).Success?
      invariant exists m :: k <= m < |otcs| && ResolveEntry(otcs[m], dialer, ext).Failure?
      decreases |otcs| - k
    {
      k := k + 1;
    }
  }

  // ---------------------------------------------------------------------------------
  // Optimizer configurations

  /**
   * A composite's transports are resolved before its strategy: a transport failure is
   * reported as such whatever the strategy name, a strategy failure only after every
   * transport resolved, and a client is built exactly when both succeed, over exactly
   * the resolved list and the strategy named.
   */
  lemma TransportsBeforeStrategy(tree: JSON, config: OptimizerConfig, dialer: ProxyDialer, ext: Externals)
    requires DecodeOptimizerConfig(tree) == Some(config)
    ensures var resolved, r := ResolvedTransports(config.transports, dialer, ext), OptimizerFromTree(tree, dialer, ext);
      && (resolved.Failure? ==> r == Failure(TransportsUnparsable))
      && (resolved.Success? && (forall k :: StrategyName(k) != config.strategy) ==> r == Failure(StrategyUnparsable))
      && (r.Success? <==> resolved.Success? && exists k :: StrategyName(k) == config.strategy)
      && (r.Success? ==> r.value.OptimizerClient? && r.value.transports == resolved.value
                         && r.value.strategy.transports == resolved.value
                         && StrategyName(r.value.strategy.kind) == config.strategy)
  {
    ParentIrrelevant(config.transports, 0, dialer, ext, tree, JArr(config.transports));
    var resolved := ResolvedTransports(config.transports, dialer, ext);
    if resolved.Success? && exists k :: StrategyName(k) == config.strategy {
      var k :| StrategyName(k) == config.strategy;
      StrategyNamesRoundTrip(k, k, resolved.value);
    }
  }

  /** A configuration that does not decode into `{transports, strategy}` is refused before anything is resolved. */
  lemma UndecodableConfigIsRefused(tree: JSON, dialer: ProxyDialer, ext: Externals)
    requires DecodeOptimizerConfig(tree).None?
    ensures OptimizerFromTree(tree, dialer, ext) == Failure(OptimizerConfigUnmarshal)
  {
  }

  /**
   * An Optimizer entry whose tree reparses is resolved as the source resolves it:
   * parsing the marshalled text of its config, as `ParseArgsOptimizer` does, gives
   * what resolving the config subtree directly gives.
   */
  lemma NestedOptimizerAgreesWithText(otc: map<string, JSON>, dialer: ProxyDialer, ext: Externals)
    requires RoundTrips(ext.codec) && Reparses(ext.codec, JObj(otc))
    requires StringMember(otc, "name") == Some("Optimizer")
    requires "config" in otc && otc["config"].JObj?
    ensures ParsedTransport(otc, dialer, ext)
            == Rewrap(ParseArgsOptimizer(ext.codec.marshal(otc["config"]), dialer, ext), OptimizerArgsUnparsable)
  {
    var config := otc["config"];
    assert Reparses(ext.codec, config);
    assert ParseArgsOptimizer(ext.codec.marshal(config), dialer, ext) == OptimizerFromTree(config, dialer, ext);
    assert ParsedTransport(otc, dialer, ext) == Rewrap(OptimizerFromTree(JObj(config.fields), dialer, ext), OptimizerArgsUnparsable);
  }

  /**
   * Every entry of an Optimizer configuration whose tree reparses reparses too. With
   * `NestedOptimizerAgreesWithText` this covers every level of nesting of a
   * configuration that came from text, since unmarshalled trees reparse.
   */
  lemma EntriesReparse(tree: JSON, c: Codec)
    requires RoundTrips(c) && Reparses(c, tree)
    requires DecodeOptimizerConfig(tree).Some?
    ensures forall k :: 0 <= k < |DecodeOptimizerConfig(tree).value.transports|
                        ==> Reparses(c, DecodeOptimizerConfig(tree).value.transports[k])
  {
    var entries := DecodeOptimizerConfig(tree).value.transports;
    if entries != [] {
      assert Reparses(c, tree.fields["transports"]);
    }
  }

  // ---------------------------------------------------------------------------------
  // Replicant options

  /**
   * A Replicant entry whose tree reparses hands its provider the marshalled text of a
   * config object, so the options are never refused as empty.
   */
  lemma ReplicantEntryArgsNeverEmpty(otc: map<string, JSON>, dialer: ProxyDialer, ext: Externals)
    requires RoundTrips(ext.codec) && Reparses(ext.codec, JObj(otc))
    requires "config" in otc && otc["config"].JObj?
    ensures ParseArgsReplicantClient(ext.codec.marshal(otc["config"]), dialer, ext) != Failure(ReplicantOptionsMissing)
  {
    assert Reparses(ext.codec, otc["config"]);
    MarshalledTextIsNotEmpty(ext.codec, otc["config"]);
  }

  // ---------------------------------------------------------------------------------
  // The outer proxy dialer

  /**
   * Every Replicant and Starbridge dialer inside `d`, at any depth of nesting, dials
   * through `base`, and every composite's strategy ranges over that composite's own
   * list.
   */
  ghost predicate DialsThrough(d: TransportDialer, base: ProxyDialer)
  {
    match d
    case ShadowTransport(_, _, _) => true
    case ReplicantTransport(_, _, dialer) => dialer == base
    case StarbridgeTransport(_, _, dialer) => dialer == base
    case OptimizerClient(transports, strategy) =>
      && strategy.transports == transports
      && forall k :: 0 <= k < |transports| ==> DialsThrough(transports[k], base)
  }

  /** The client an Optimizer configuration resolves to passes the outer proxy dialer, unchanged, down every level. */
  lemma {:induction false} OptimizerDialsThrough(tree: JSON, dialer: ProxyDialer, ext: Externals)
    ensures OptimizerFromTree(tree, dialer, ext).Success? ==> DialsThrough(OptimizerFromTree(tree, dialer, ext).value, dialer)
    decreases tree, 3
  {
    match DecodeOptimizerConfig(tree)
    case None =>
    case Some(config) =>
      ResolvedDialThrough(config.transports, 0, dialer, ext, tree);
  }

  /** Every dialer a transport list resolves to passes the outer proxy dialer on. */
  lemma {:induction false} ResolvedDialThrough(otcs: seq<JSON>, i: nat, dialer: ProxyDialer, ext: Externals, parent: JSON)
    requires i <= |otcs| && Lists(otcs, parent)
    ensures var r := ResolvedFrom(otcs, i, dialer, ext, parent);
      r.Success? ==> forall k :: 0 <= k < |r.value| ==> DialsThrough(r.value[k], dialer)
    decreases parent, 2, |otcs| - i
  {
    if i < |otcs| {
      EntryDialsThrough(otcs[i], dialer, ext);
      ResolvedDialThrough(otcs, i + 1, dialer, ext, parent);
      var r := ResolvedFrom(otcs, i, dialer, ext, parent);
      if r.Success? {
        var rest := ResolvedFrom(otcs, i + 1, dialer, ext, parent);
        assert r.value == [ResolveEntry(otcs[i], dialer, ext).value] + rest.value;
        forall k | 0 <= k < |r.value|
          ensures DialsThrough(r.value[k], dialer)
        {
          if k > 0 {
            assert r.value[k] == rest.value[k - 1];
          }
        }
      }
    }
  }

  /** The dialer one list entry resolves to passes the outer proxy dialer on. */
  lemma {:induction false} EntryDialsThrough(entry: JSON, dialer: ProxyDialer, ext: Externals)
    ensures ResolveEntry(entry, dialer, ext).Success? ==> DialsThrough(ResolveEntry(entry, dialer, ext).value, dialer)
    decreases entry, 1
  {
    match entry
    case JObj(otc) => ParsedDialsThrough(otc, dialer, ext);
    case _ =>
  }

  /** The dialer one `{name, config}` entry resolves to passes the outer proxy dialer on. */
  lemma {:induction false} ParsedDialsThrough(otc: map<string, JSON>, dialer: ProxyDialer, ext: Externals)
    ensures ParsedTransport(otc, dialer, ext).Success? ==> DialsThrough(ParsedTransport(otc, dialer, ext).value, dialer)
    decreases JObj(otc), 0
  {
    if StringMember(otc, "name").Some? && "config" in otc && otc["config"].JObj? {
      var config := otc["config"].fields;
      OptimizerDialsThrough(JObj(config), dialer, ext);
    }
  }
}
