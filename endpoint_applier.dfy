/**
 * The broker's endpoint applier: compares the running endpoints with a new
 * configuration, stops the ones that disappeared, and creates the new ones,
 * each as a failover thread over a stack of protocol layers (OSI levels 1 to
 * 7) and, optionally, the failover endpoint it names.
 */
module EndpointApplier {
  import opened Common

  /** An endpoint configuration; two configurations are the same entry when all their fields agree. */
  datatype EndpointConfig = EndpointConfig(
    name: string,
    failover: string,
    typeName: string,
    retryInterval: nat,
    params: map<string, string>)

  /** A registered protocol: the OSI levels it spans. */
  datatype Protocol = Protocol(protocolName: string, osiFrom: int, osiTo: int)

  /** What `has_endpoint(cfg, is_input, is_output)` of each protocol's factory answers. */
  type Accepts = (Protocol, EndpointConfig, bool, bool) -> bool

  /** A failover thread: its endpoint's layers from level 1 upwards, and its own failover. */
  datatype Failover = Failover(
    isOutput: bool,
    retryInterval: nat,
    layers: seq<Protocol>,
    failover: Option<Failover>)

  /** Every protocol ends at or above the level it starts at. */
  predicate WellFormed(protocols: seq<Protocol>)
  {
    forall i :: 0 <= i < |protocols| ==> protocols[i].osiFrom <= protocols[i].osiTo
  }

  /** The first endpoint whose name is `name` (`failover_match_name`). */
  function NamedIndex(l: seq<EndpointConfig>, name: string): (r: Option<nat>)
    ensures r.Some? ==>
      && r.value < |l| && l[r.value].name == name
      && forall j :: 0 <= j < r.value ==> l[j].name != name
    ensures r.None? ==> forall j :: 0 <= j < |l| ==> l[j].name != name
  {
    if l == [] then None
    else if l[0].name == name then Some(0)
    else match NamedIndex(l[1..], name)
      case None => None
      case Some(k) => Some(k + 1)
  }

  /** The first protocol starting at `level` whose factory accepts the configuration. */
  function ProtocolIndex(protocols: seq<Protocol>, level: int, cfg: EndpointConfig, isOutput: bool,
                         accepts: Accepts): (r: Option<nat>)
    ensures r.Some? ==>
      && r.value < |protocols| && protocols[r.value].osiFrom == level
      && accepts(protocols[r.value], cfg, !isOutput, isOutput)
      && forall j :: 0 <= j < r.value ==>
           !(protocols[j].osiFrom == level && accepts(protocols[j], cfg, !isOutput, isOutput))
    ensures r.None? ==> forall j :: 0 <= j < |protocols| ==>
      !(protocols[j].osiFrom == level && accepts(protocols[j], cfg, !isOutput, isOutput))
  {
    if protocols == [] then None
    else if protocols[0].osiFrom == level && accepts(protocols[0], cfg, !isOutput, isOutput) then Some(0)
    else match ProtocolIndex(protocols[1..], level, cfg, isOutput, accepts)
      case None => None
      case Some(k) => Some(k + 1)
  }

  /**
   * The layers above the first, from `level` on: the first accepting protocol
   * at each level stacks on top and the search resumes above its top level;
   * a level without one is skipped, except level 7, which is an error.
   */
  function UpperLayers(protocols: seq<Protocol>, cfg: EndpointConfig, isOutput: bool, accepts: Accepts,
                       level: int, below: seq<Protocol>): (r: Result<seq<Protocol>>)
    requires WellFormed(protocols)
    ensures r.Ok? ==> |r.value| >= |below| && r.value[..|below|] == below
    decreases 8 - level
  {
    if level > 7 then Ok(below)
    else match ProtocolIndex(protocols, level, cfg, isOutput, accepts)
      case Some(k) =>
        var r := UpperLayers(protocols, cfg, isOutput, accepts, protocols[k].osiTo + 1, below + [protocols[k]]);
        assert r.Ok? ==> r.value[..|below|] == (r.value[..|below| + 1])[..|below|];
        r
      case None =>
        if level == 7 then Err(NoProtocol(cfg))
        else UpperLayers(protocols, cfg, isOutput, accepts, level + 1, below)
  }

  /** Every layer stacked from `level` on is a registered protocol starting between `level` and 7. */
  lemma {:induction false} UpperLayersFromProtocols(protocols: seq<Protocol>, cfg: EndpointConfig, isOutput: bool,
                                                    accepts: Accepts, level: int, below: seq<Protocol>, i: nat)
    requires WellFormed(protocols)
    requires UpperLayers(protocols, cfg, isOutput, accepts, level, below).Ok?
    requires |below| <= i < |UpperLayers(protocols, cfg, isOutput, accepts, level, below).value|
    ensures UpperLayers(protocols, cfg, isOutput, accepts, level, below).value[i] in protocols
    ensures level <= UpperLayers(protocols, cfg, isOutput, accepts, level, below).value[i].osiFrom <= 7
    decreases 8 - level
  {
    if level <= 7 {
      match ProtocolIndex(protocols, level, cfg, isOutput, accepts)
      case Some(k) =>
        var p := protocols[k];
        var r := UpperLayers(protocols, cfg, isOutput, accepts, p.osiTo + 1, below + [p]);
        if i == |below| {
          assert r.value[..|below| + 1][|below|] == p;
        } else {
          UpperLayersFromProtocols(protocols, cfg, isOutput, accepts, p.osiTo + 1, below + [p], i);
        }
      case None =>
        UpperLayersFromProtocols(protocols, cfg, isOutput, accepts, level + 1, below, i);
    }
  }

  /** A level with an accepting protocol stacks it and resumes above it. */
  lemma UpperLayersFound(protocols: seq<Protocol>, cfg: EndpointConfig, isOutput: bool, accepts: Accepts,
                         level: int, below: seq<Protocol>, k: nat)
    requires WellFormed(protocols) && level <= 7
    requires ProtocolIndex(protocols, level, cfg, isOutput, accepts) == Some(k)
    ensures UpperLayers(protocols, cfg, isOutput, accepts, level, below)
         == UpperLayers(protocols, cfg, isOutput, accepts, protocols[k].osiTo + 1, below + [protocols[k]])
    ensures protocols[k].osiTo >= level
  {
  }

  /** Level 7 without an accepting protocol is an error. */
  lemma UpperLayersMissing(protocols: seq<Protocol>, cfg: EndpointConfig, isOutput: bool, accepts: Accepts,
                           below: seq<Protocol>)
    requires WellFormed(protocols)
    requires ProtocolIndex(protocols, 7, cfg, isOutput, accepts).None?
    ensures UpperLayers(protocols, cfg, isOutput, accepts, 7, below)
         == Err(NoProtocol(cfg))
  {
  }

  /** A level below 7 without an accepting protocol is skipped. */
  lemma UpperLayersSkip(protocols: seq<Protocol>, cfg: EndpointConfig, isOutput: bool, accepts: Accepts,
                        level: int, below: seq<Protocol>)
    requires WellFormed(protocols) && level < 7
    requires ProtocolIndex(protocols, level, cfg, isOutput, accepts).None?
    ensures UpperLayers(protocols, cfg, isOutput, accepts, level, below)
         == UpperLayers(protocols, cfg, isOutput, accepts, level + 1, below)
  {
  }

  /** The whole stack: a protocol starting at level 1 is mandatory. */
  function Layers(protocols: seq<Protocol>, cfg: EndpointConfig, isOutput: bool, accepts: Accepts): (r: Result<seq<Protocol>>)
    requires WellFormed(protocols)
    ensures ProtocolIndex(protocols, 1, cfg, isOutput, accepts).None? ==> r.Err?
    ensures r.Ok? ==> |r.value| >= 1 && r.value[0].osiFrom == 1 && r.value[0] in protocols
  {
    match ProtocolIndex(protocols, 1, cfg, isOutput, accepts)
    case None => Err(NoProtocol(cfg))
    case Some(k) => UpperLayers(protocols, cfg, isOutput, accepts, protocols[k].osiTo + 1, [protocols[k]])
  }

  /**
   * `_create_endpoint`: the failover, when one is named, is looked up by name
   * and built first; then the endpoint's own layers. `fuel` bounds the depth
   * of the failover chain.
   */
  function CreateSpec(cfg: EndpointConfig, isInput: bool, isOutput: bool, l: seq<EndpointConfig>,
                      protocols: seq<Protocol>, accepts: Accepts, fuel: nat): (r: Result<Failover>)
    requires WellFormed(protocols)
    ensures r.Ok? ==> Layers(protocols, cfg, isOutput, accepts).Ok?
    ensures r.Ok? ==> (r.value.failover.Some? <==> cfg.failover != "")
    decreases fuel
  {
    var fo: Result<Option<Failover>> :=
      if cfg.failover == "" then Ok(None)
      else match NamedIndex(l, cfg.failover)
        case None =>
          Err("endpoint applier: could not find failover '" + cfg.failover + "' for endpoint '" + cfg.name + "'")
        case Some(k) =>
          if fuel == 0 then Err("endpoint applier: failover chain too deep for endpoint '" + cfg.name + "'")
          else match CreateSpec(l[k], isInput || isOutput, isOutput, l, protocols, accepts, fuel - 1)
            case Err(m) => Err(m)
            case Ok(f) => Ok(Some(f));
    match fo
    case Err(m) => Err(m)
    case Ok(failover) =>
      match Layers(protocols, cfg, isOutput, accepts)
      case Err(m) => Err(m)
      case Ok(layers) => Ok(Failover(isOutput, cfg.retryInterval, layers, failover))
  }

  /** A named failover that is not in the list is an error, whatever the protocols. */
  lemma MissingFailoverFails(cfg: EndpointConfig, isInput: bool, isOutput: bool, l: seq<EndpointConfig>,
                             protocols: seq<Protocol>, accepts: Accepts, fuel: nat)
    requires WellFormed(protocols)
    requires cfg.failover != "" && forall j :: 0 <= j < |l| ==> l[j].name != cfg.failover
    ensures CreateSpec(cfg, isInput, isOutput, l, protocols, accepts, fuel).Err?
  {
  }

  /**
   * A created endpoint rests on a level-1 protocol, and when it names a
   * failover, it carries the endpoint built for the first configuration of
   * that name.
   */
  lemma CreatedShape(cfg: EndpointConfig, isInput: bool, isOutput: bool, l: seq<EndpointConfig>,
                     protocols: seq<Protocol>, accepts: Accepts, fuel: nat)
    requires WellFormed(protocols)
    requires CreateSpec(cfg, isInput, isOutput, l, protocols, accepts, fuel).Ok?
    ensures var f := CreateSpec(cfg, isInput, isOutput, l, protocols, accepts, fuel).value;
      && f.isOutput == isOutput && f.retryInterval == cfg.retryInterval
      && f.layers[0].osiFrom == 1
      && (cfg.failover == "" <==> f.failover.None?)
      && (cfg.failover != "" ==>
            NamedIndex(l, cfg.failover).Some? && fuel > 0
            && Ok(f.failover.value)
               == CreateSpec(l[NamedIndex(l, cfg.failover).value], isInput || isOutput, isOutput, l, protocols, accepts, fuel - 1))
  {
  }

  /** `std::find_if` with `failover_match_name`. */
  method FindNamed(l: seq<EndpointConfig>, name: string) returns (r: Option<nat>)
    ensures r == NamedIndex(l, name)
  {
    var k := 0;
    while k < |l| && l[k].name != name
      invariant k <= |l|
      invariant forall j :: 0 <= j < k ==> l[j].name != name
    {
      k := k + 1;
    }
    r := if k == |l| then None else Some(k);
  }

  /** One browse of the protocol list for a level. */
  method FindProtocol(protocols: seq<Protocol>, level: int, cfg: EndpointConfig, isOutput: bool,
                      accepts: Accepts) returns (r: Option<nat>)
    ensures r == ProtocolIndex(protocols, level, cfg, isOutput, accepts)
  {
    var j := 0;
    while j < |protocols| && !(protocols[j].osiFrom == level && accepts(protocols[j], cfg, !isOutput, isOutput))
      invariant j <= |protocols|
      invariant forall m :: 0 <= m < j ==>
        !(protocols[m].osiFrom == level && accepts(protocols[m], cfg, !isOutput, isOutput))
    {
      j := j + 1;
    }
    r := if j == |protocols| then None else Some(j);
  }

  /** The message of a missing layer. */
  function NoProtocol(cfg: EndpointConfig): string
  {
    "endpoint applier: no matching protocol found for endpoint '" + cfg.name + "'"
  }

  /**
   * One pass of the upper-layer loop of `_create_endpoint`: the protocol found
   * at `level` is stacked and the loop resumes above its top level.
   */
  method NextLayer(protocols: seq<Protocol>, cfg: EndpointConfig, isOutput: bool, accepts: Accepts,
                   level: int, layers: seq<Protocol>) returns (next: int, stacked: seq<Protocol>, failed: bool)
    requires WellFormed(protocols) && level <= 7
    ensures failed ==> UpperLayers(protocols, cfg, isOutput, accepts, level, layers) == Err(NoProtocol(cfg))
    ensures !failed ==> next > level
    ensures !failed ==>
      UpperLayers(protocols, cfg, isOutput, accepts, level, layers)
      == UpperLayers(protocols, cfg, isOutput, accepts, next, stacked)
  {
    var found := FindProtocol(protocols, level, cfg, isOutput, accepts);
    next, stacked, failed := level + 1, layers, false;
    if found.Some? {
      UpperLayersFound(protocols, cfg, isOutput, accepts, level, layers, found.value);
      next, stacked := protocols[found.value].osiTo + 1, layers + [protocols[found.value]];
    } else if level == 7 {
      UpperLayersMissing(protocols, cfg, isOutput, accepts, layers);
      failed := true;
    } else {
      UpperLayersSkip(protocols, cfg, isOutput, accepts, level, layers);
    }
  }

  /** The layer loops of `_create_endpoint`. */
  method BuildLayers(protocols: seq<Protocol>, cfg: EndpointConfig, isOutput: bool, accepts: Accepts)
    returns (r: Result<seq<Protocol>>)
    requires WellFormed(protocols)
    ensures r == Layers(protocols, cfg, isOutput, accepts)
  {
    var first := FindProtocol(protocols, 1, cfg, isOutput, accepts);
    if first.None? {
      return Err(NoProtocol(cfg));
    }
    var layers := [protocols[first.value]];
    var level := protocols[first.value].osiTo + 1;
    while level <= 7
      invariant UpperLayers(protocols, cfg, isOutput, accepts, level, layers) == Layers(protocols, cfg, isOutput, accepts)
      decreases 8 - level
    {
      var next, stacked, failed := NextLayer(protocols, cfg, isOutput, accepts, level, layers);
      if failed {
        return Err(NoProtocol(cfg));
      }
      level, layers := next, stacked;
    }
    r := Ok(layers);
  }

  /** `_create_endpoint`: it recurses once per failover. */
  method CreateEndpoint(cfg: EndpointConfig, isInput: bool, isOutput: bool, l: seq<EndpointConfig>,
                        protocols: seq<Protocol>, accepts: Accepts, fuel: nat) returns (r: Result<Failover>)
    requires WellFormed(protocols)
    ensures r == CreateSpec(cfg, isInput, isOutput, l, protocols, accepts, fuel)
    decreases fuel
  {
    var failover: Option<Failover> := None;
    if cfg.failover != "" {
      var k := FindNamed(l, cfg.failover);
      if k.None? {
        return Err("endpoint applier: could not find failover '" + cfg.failover + "' for endpoint '" + cfg.name + "'");
      }
      if fuel == 0 {
        return Err("endpoint applier: failover chain too deep for endpoint '" + cfg.name + "'");
      }
      var fo := CreateEndpoint(l[k.value], isInput || isOutput, isOutput, l, protocols, accepts, fuel - 1);
      if fo.Err? {
        return Err(fo.error);
      }
      failover := Some(fo.value);
    }
    var layers := BuildLayers(protocols, cfg, isOutput, accepts);
    if layers.Err? {
      return Err(layers.error);
    }
    r := Ok(Failover(isOutput, cfg.retryInterval, layers.value, failover));
  }

  /**
   * The diff, left to right over the new list: an entry still among the
   * entries to delete is kept (and no longer deleted), any other is to be
   * created. The result is what is created and what remains to stop.
   */
  function Diff(toDelete: set<EndpointConfig>, newEndpoints: seq<EndpointConfig>): (r: (seq<EndpointConfig>, set<EndpointConfig>))
    ensures r.1 <= toDelete
    ensures forall x :: x in r.0 ==> x in newEndpoints
  {
    if newEndpoints == [] then ([], toDelete)
    else if newEndpoints[0] in toDelete then Diff(toDelete - {newEndpoints[0]}, newEndpoints[1..])
    else
      var rest := Diff(toDelete, newEndpoints[1..]);
      ([newEndpoints[0]] + rest.0, rest.1)
  }

  /** The entries stopped are exactly the current ones absent from the new list. */
  lemma {:induction false} DiffStopsAbsent(toDelete: set<EndpointConfig>, newEndpoints: seq<EndpointConfig>)
    ensures Diff(toDelete, newEndpoints).1 == toDelete - set x | x in newEndpoints
  {
    if newEndpoints != [] {
      if newEndpoints[0] in toDelete {
        DiffStopsAbsent(toDelete - {newEndpoints[0]}, newEndpoints[1..]);
      } else {
        DiffStopsAbsent(toDelete, newEndpoints[1..]);
      }
      assert (set x | x in newEndpoints) == {newEndpoints[0]} + set x | x in newEndpoints[1..];
    }
  }

  predicate NoDuplicates(s: seq<EndpointConfig>)
  {
    forall i, j :: 0 <= i < j < |s| ==> s[i] != s[j]
  }

  /** The entries of `s` not in `d`, in order. */
  function Without(s: seq<EndpointConfig>, d: set<EndpointConfig>): (r: seq<EndpointConfig>)
    ensures forall x :: x in r <==> x in s && x !in d
  {
    if s == [] then [] else if s[0] in d then Without(s[1..], d) else [s[0]] + Without(s[1..], d)
  }

  /**
   * Without repeated entries in the new list, the diff creates exactly the new
   * entries that are not running, in list order; an entry both running and
   * configured is neither created nor stopped.
   */
  lemma {:induction false} DiffCreatesNew(toDelete: set<EndpointConfig>, newEndpoints: seq<EndpointConfig>)
    requires NoDuplicates(newEndpoints)
    ensures Diff(toDelete, newEndpoints).0 == Without(newEndpoints, toDelete)
  {
    if newEndpoints != [] {
      var x := newEndpoints[0];
      var rest := newEndpoints[1..];
      assert NoDuplicates(rest) by {
        forall i, j | 0 <= i < j < |rest| ensures rest[i] != rest[j] {
          assert rest[i] == newEndpoints[i + 1] && rest[j] == newEndpoints[j + 1];
        }
      }
      assert x !in rest by {
        forall i | 0 <= i < |rest| ensures rest[i] != x {
          assert rest[i] == newEndpoints[i + 1];
        }
      }
      if x in toDelete {
        DiffCreatesNew(toDelete - {x}, rest);
        WithoutIgnoresAbsent(rest, toDelete, x);
      } else {
        DiffCreatesNew(toDelete, rest);
      }
    }
  }

  lemma {:induction false} WithoutIgnoresAbsent(s: seq<EndpointConfig>, d: set<EndpointConfig>, x: EndpointConfig)
    requires x !in s
    ensures Without(s, d - {x}) == Without(s, d)
  {
    if s != [] {
      WithoutIgnoresAbsent(s[1..], d, x);
    }
  }

  /** Whether apply starts `e` directly: unnamed, or no entry to create names it as its failover. */
  predicate StartsDirectly(e: EndpointConfig, toCreate: seq<EndpointConfig>)
  {
    e.name == "" || forall j :: 0 <= j < |toCreate| ==> toCreate[j].failover != e.name
  }

  /** The table after creating the pending entries in order, and the error that stopped it, if any. */
  datatype Applied = Applied(table: map<EndpointConfig, Failover>, error: Option<string>)

  function CreateAll(table: map<EndpointConfig, Failover>, pending: seq<EndpointConfig>, toCreate: seq<EndpointConfig>,
                     isInput: bool, isOutput: bool, protocols: seq<Protocol>, accepts: Accepts): (r: Applied)
    requires WellFormed(protocols)
    ensures table.Keys <= r.table.Keys
    ensures r.error.None? ==> forall e :: e in pending && StartsDirectly(e, toCreate) ==> e in r.table
    decreases |pending|
  {
    if pending == [] then Applied(table, None)
    else if !StartsDirectly(pending[0], toCreate) then
      CreateAll(table, pending[1..], toCreate, isInput, isOutput, protocols, accepts)
    else match CreateSpec(pending[0], isInput, isOutput, toCreate, protocols, accepts, |toCreate|)
      case Err(m) => Applied(table, Some(m))
      case Ok(f) => CreateAll(table[pending[0] := f], pending[1..], toCreate, isInput, isOutput, protocols, accepts)
  }

  /**
   * Apply never starts an entry another pending entry relies on as its
   * failover: every entry it adds is pending and starts directly.
   */
  lemma {:induction false} FailoversNotStarted(table: map<EndpointConfig, Failover>, pending: seq<EndpointConfig>,
      toCreate: seq<EndpointConfig>, isInput: bool, isOutput: bool, protocols: seq<Protocol>, accepts: Accepts)
    requires WellFormed(protocols)
    ensures var after := CreateAll(table, pending, toCreate, isInput, isOutput, protocols, accepts).table;
      && table.Keys <= after.Keys
      && forall e :: e in after && e !in table ==> e in pending && StartsDirectly(e, toCreate)
    decreases |pending|
  {
    if pending != [] {
      if !StartsDirectly(pending[0], toCreate) {
        FailoversNotStarted(table, pending[1..], toCreate, isInput, isOutput, protocols, accepts);
      } else {
        match CreateSpec(pending[0], isInput, isOutput, toCreate, protocols, accepts, |toCreate|)
        case Err(_) =>
        case Ok(f) =>
          FailoversNotStarted(table[pending[0] := f], pending[1..], toCreate, isInput, isOutput, protocols, accepts);
      }
    }
  }

  /** The applier's outcome: the entries it stopped, or the error that interrupted it. */
  datatype Outcome = Outcome(stoppedInputs: set<EndpointConfig>, stoppedOutputs: set<EndpointConfig>, error: Option<string>)

  class Applier {
    var inputs: map<EndpointConfig, Failover>
    var outputs: map<EndpointConfig, Failover>

    constructor ()
      ensures inputs == map[] && outputs == map[]
    {
      inputs, outputs := map[], map[];
    }

    /** `_diff_endpoints`: works on a copy of `current`, which it leaves as it is. */
    method DiffEndpoints(current: map<EndpointConfig, Failover>, newEndpoints: seq<EndpointConfig>)
      returns (toCreate: seq<EndpointConfig>, stopped: set<EndpointConfig>)
      ensures (toCreate, stopped) == Diff(current.Keys, newEndpoints)
    {
      var toDelete := current.Keys;
      toCreate := [];
      var i := 0;
      assert newEndpoints[0..] == newEndpoints;
      assert [] + Diff(toDelete, newEndpoints).0 == Diff(toDelete, newEndpoints).0;
      while i < |newEndpoints|
        invariant i <= |newEndpoints|
        invariant Diff(current.Keys, newEndpoints)
          == (toCreate + Diff(toDelete, newEndpoints[i..]).0, Diff(toDelete, newEndpoints[i..]).1)
      {
        assert newEndpoints[i..][1..] == newEndpoints[i + 1..];
        ghost var rest := Diff(toDelete, newEndpoints[i + 1..]);
        if newEndpoints[i] in toDelete {
          toDelete := toDelete - {newEndpoints[i]};
        } else {
          assert Diff(toDelete, newEndpoints[i..]) == ([newEndpoints[i]] + rest.0, rest.1);
          assert toCreate + ([newEndpoints[i]] + rest.0) == (toCreate + [newEndpoints[i]]) + rest.0;
          toCreate := toCreate + [newEndpoints[i]];
        }
        i := i + 1;
      }
      assert newEndpoints[i..] == [];
      assert toCreate + [] == toCreate;
      stopped := toDelete;
    }

    /** The search of `apply` for an entry to create naming `e` as its failover. */
    method StartsDirectlyCheck(e: EndpointConfig, toCreate: seq<EndpointConfig>) returns (direct: bool)
      ensures direct == StartsDirectly(e, toCreate)
    {
      var k := 0;
      while k < |toCreate| && !(e.name != "" && toCreate[k].failover == e.name)
        invariant k <= |toCreate|
        invariant forall j :: 0 <= j < k ==> !(e.name != "" && toCreate[j].failover == e.name)
      {
        k := k + 1;
      }
      direct := e.name == "" || k == |toCreate|;
    }

    /** The start loop of `apply` for one direction. */
    method StartAll(table: map<EndpointConfig, Failover>, toCreate: seq<EndpointConfig>, isInput: bool, isOutput: bool,
                    protocols: seq<Protocol>, accepts: Accepts) returns (r: Applied)
      requires WellFormed(protocols)
      ensures r == CreateAll(table, toCreate, toCreate, isInput, isOutput, protocols, accepts)
    {
      var t := table;
      var i := 0;
      while i < |toCreate|
        invariant i <= |toCreate|
        invariant CreateAll(t, toCreate[i..], toCreate, isInput, isOutput, protocols, accepts)
          == CreateAll(table, toCreate, toCreate, isInput, isOutput, protocols, accepts)
      {
        var e := toCreate[i];
        assert toCreate[i..][0] == e && toCreate[i..][1..] == toCreate[i + 1..];
        var direct := StartsDirectlyCheck(e, toCreate);
        if direct {
          var f := CreateEndpoint(e, isInput, isOutput, toCreate, protocols, accepts, |toCreate|);
          if f.Err? {
            assert CreateAll(t, toCreate[i..], toCreate, isInput, isOutput, protocols, accepts) == Applied(t, Some(f.error));
            return Applied(t, Some(f.error));
          }
          assert CreateAll(t, toCreate[i..], toCreate, isInput, isOutput, protocols, accepts)
              == CreateAll(t[e := f.value], toCreate[i + 1..], toCreate, isInput, isOutput, protocols, accepts);
          t := t[e := f.value];
        } else {
          assert CreateAll(t, toCreate[i..], toCreate, isInput, isOutput, protocols, accepts)
              == CreateAll(t, toCreate[i + 1..], toCreate, isInput, isOutput, protocols, accepts);
        }
        i := i + 1;
      }
      r := Applied(t, None);
    }

    /**
     * `apply`: both diffs first, then outputs are created, then inputs. An
     * error stops the remaining creations; what was created stays registered.
     */
    method Apply(inputCfgs: seq<EndpointConfig>, outputCfgs: seq<EndpointConfig>,
                 protocols: seq<Protocol>, accepts: Accepts) returns (r: Outcome)
      requires WellFormed(protocols)
      modifies this
      ensures var inDiff := Diff(old(inputs).Keys, inputCfgs);
        var outDiff := Diff(old(outputs).Keys, outputCfgs);
        var outs := CreateAll(old(outputs), outDiff.0, outDiff.0, false, true, protocols, accepts);
        var ins := CreateAll(old(inputs), inDiff.0, inDiff.0, true, false, protocols, accepts);
        && r.stoppedInputs == inDiff.1 && r.stoppedOutputs == outDiff.1
        && outputs == outs.table
        && (outs.error.Some? ==> inputs == old(inputs) && r.error == outs.error)
        && (outs.error.None? ==> inputs == ins.table && r.error == ins.error)
    {
      var inToCreate, inStopped := DiffEndpoints(inputs, inputCfgs);
      var outToCreate, outStopped := DiffEndpoints(outputs, outputCfgs);
      var outs := StartAll(outputs, outToCreate, false, true, protocols, accepts);
      outputs := outs.table;
      if outs.error.Some? {
        return Outcome(inStopped, outStopped, outs.error);
      }
      var ins := StartAll(inputs, inToCreate, true, false, protocols, accepts);
      inputs := ins.table;
      r := Outcome(inStopped, outStopped, ins.error);
    }
  }
}
