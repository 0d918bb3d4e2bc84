/**
 * The service-dependency applier: it expands configured dependencies into
 * one-to-one execution and notification dependencies, registers them in the
 * engine's dependency table, and removes or resolves them.
 */
module ServicedependencyApplier {
  import opened Common

  /** The dependency kinds of a configured service dependency. */
  datatype DepType = UnknownType | ExecutionDependency | NotificationDependency

  /** A configured service dependency: what depends on what, its kind, and its options. */
  datatype Dep = Dep(hosts: seq<string>, hostgroups: seq<string>, services: seq<string>,
                     servicegroups: seq<string>, dependentHosts: seq<string>,
                     dependentHostgroups: seq<string>, dependentServices: seq<string>,
                     dependentServicegroups: seq<string>, depType: DepType, inheritsParent: bool,
                     executionOptions: nat, notificationOptions: nat, period: string)

  /** One host and one service description, on both sides, and no group. */
  predicate OneToOne(d: Dep)
  {
    |d.hosts| == 1 && d.hostgroups == [] && |d.services| == 1 && d.servicegroups == []
    && |d.dependentHosts| == 1 && d.dependentHostgroups == [] && |d.dependentServices| == 1
    && d.dependentServicegroups == []
  }

  /** Whether `expand_objects` rewrites the dependency rather than keeping it as it is. */
  predicate NeedsExpansion(d: Dep)
  {
    !OneToOne(d) || d.depType == UnknownType
  }

  // ---------------------------------------------------------------------
  // The engine-side dependency
  // ---------------------------------------------------------------------

  datatype Kind = Execution | Notification

  /** The failure states a dependency triggers on. */
  datatype Flags = Flags(ok: bool, warning: bool, unknown: bool, critical: bool, pending: bool)

  /** Bit positions of the failure options. */
  const OkBit := 0
  const UnknownBit := 1
  const WarningBit := 2
  const CriticalBit := 3
  const PendingBit := 4

  function FlagsOf(options: nat): (f: Flags)
    ensures f.ok <==> BitSet(options, OkBit)
    ensures f.warning <==> BitSet(options, WarningBit)
    ensures f.unknown <==> BitSet(options, UnknownBit)
    ensures f.critical <==> BitSet(options, CriticalBit)
    ensures f.pending <==> BitSet(options, PendingBit)
  {
    Flags(BitSet(options, OkBit), BitSet(options, WarningBit), BitSet(options, UnknownBit),
          BitSet(options, CriticalBit), BitSet(options, PendingBit))
  }

  /** No option set, no flag raised. */
  lemma NoOptionsNoFlags()
    ensures FlagsOf(0) == Flags(false, false, false, false, false)
  {
  }

  /** An engine service dependency. */
  datatype EngineDep = EngineDep(dependentHost: string, dependentService: string, host: string,
                                 service: string, kind: Kind, inheritsParent: bool, flags: Flags,
                                 period: string)

  /** The engine dependency `add_object` builds from an accepted configured one. */
  function Created(d: Dep): (e: EngineDep)
    requires OneToOne(d) && d.depType != UnknownType
    ensures e.dependentHost == d.dependentHosts[0] && e.dependentService == d.dependentServices[0]
    ensures e.host == d.hosts[0] && e.service == d.services[0]
    ensures e.inheritsParent == d.inheritsParent && e.period == d.period
    ensures d.depType == ExecutionDependency ==> e.kind == Execution && e.flags == FlagsOf(d.executionOptions)
    ensures d.depType == NotificationDependency ==> e.kind == Notification && e.flags == FlagsOf(d.notificationOptions)
  {
    var execution := d.depType == ExecutionDependency;
    EngineDep(d.dependentHosts[0], d.dependentServices[0], d.hosts[0], d.services[0],
              if execution then Execution else Notification, d.inheritsParent,
              FlagsOf(if execution then d.executionOptions else d.notificationOptions), d.period)
  }

  /** Options of the other kind never reach the engine dependency. */
  lemma OtherOptionsIgnored(d: Dep, other: nat)
    requires OneToOne(d) && d.depType != UnknownType
    ensures d.depType == ExecutionDependency ==> Created(d.(notificationOptions := other)) == Created(d)
    ensures d.depType == NotificationDependency ==> Created(d.(executionOptions := other)) == Created(d)
  {
  }

  const MultipleMessage := "Could not create service dependency with multiple (dependent) hosts / host groups / services / service groups"

  function UnexpandedMessage(d: Dep): string
    requires OneToOne(d)
  {
    "Could not create unexpanded dependency of service '" + d.dependentServices[0] + "' of host '"
    + d.dependentHosts[0] + "' on service '" + d.services[0] + "' of host '" + d.hosts[0] + "'"
  }

  /** The checks of `add_object`: None exactly when the dependency can be created. */
  function AddCheck(d: Dep): (r: Option<string>)
    ensures r.None? <==> !NeedsExpansion(d)
    ensures !OneToOne(d) ==> r == Some(MultipleMessage)
  {
    if !OneToOne(d) then Some(MultipleMessage)
    else if d.depType == UnknownType then Some(UnexpandedMessage(d))
    else None
  }

  const ModifyMessage := "Could not modify a service dependency: service dependency objects can only be added or removed, this is likely a software bug that you should report to Centreon Engine developers"
  const ResolveMessage := "Cannot resolve non-existing service dependency"

  /** What the event broker is told. */
  datatype Event = Added(dep: EngineDep) | Deleted(dep: EngineDep)

  /** An entry of the engine's dependency multimap, with the configured dependency it was made from. */
  datatype Entry = Entry(key: Dep, dep: EngineDep)

  /** The first entry made from `key`, if any. */
  function Find(engine: seq<Entry>, key: Dep): (r: Option<nat>)
    ensures r.Some? ==> r.value < |engine| && engine[r.value].key == key
    ensures r.Some? ==> forall i :: 0 <= i < r.value ==> engine[i].key != key
    ensures r.None? ==> forall i :: 0 <= i < |engine| ==> engine[i].key != key
  {
    if engine == [] then None
    else if engine[0].key == key then Some(0)
    else match Find(engine[1..], key)
      case None => None
      case Some(i) => Some(i + 1)
  }

  /**
   * The applier with the global tables it works on: the configuration's set
   * of service dependencies, the engine's dependency multimap in insertion
   * order, and the events sent to the broker.
   */
  class Applier {
    var config: set<Dep>
    var engine: seq<Entry>
    var events: seq<Event>

    constructor ()
      ensures config == {} && engine == [] && events == []
    {
      config := {};
      engine := [];
      events := [];
    }

    /** `add_object`. */
    method AddObject(d: Dep) returns (error: Option<string>)
      modifies this
      ensures error == AddCheck(d)
      ensures error.Some? ==> config == old(config) && engine == old(engine) && events == old(events)
      ensures error.None? ==>
        && config == old(config) + {d}
        && engine == old(engine) + [Entry(d, Created(d))]
        && events == old(events) + [Added(Created(d))]
    {
      error := AddCheck(d);
      if error.Some? {
        return;
      }
      config := config + {d};
      var sd := Created(d);
      engine := engine + [Entry(d, sd)];
      events := events + [Added(sd)];
    }

    /** `modify_object`: always refused. */
    method ModifyObject(d: Dep) returns (error: string)
      ensures error == ModifyMessage
    {
      error := ModifyMessage;
    }

    /** `remove_object`: the first matching engine entry goes, and the dependency leaves the configuration. */
    method RemoveObject(d: Dep)
      modifies this
      ensures config == old(config) - {d}
      ensures Find(old(engine), d).None? ==> engine == old(engine) && events == old(events)
      ensures Find(old(engine), d).Some? ==>
        var i := Find(old(engine), d).value;
        && engine == old(engine)[..i] + old(engine)[i + 1..]
        && events == old(events) + [Deleted(old(engine)[i].dep)]
    {
      var found := Find(engine, d);
      if found.Some? {
        var i := found.value;
        events := events + [Deleted(engine[i].dep)];
        engine := engine[..i] + engine[i + 1..];
      }
      config := config - {d};
    }

    /** `resolve_object`: refused when no engine entry was made from the dependency. */
    method ResolveObject(d: Dep) returns (error: Option<string>)
      ensures error.Some? <==> (forall i :: 0 <= i < |engine| ==> engine[i].key != d)
      ensures error.Some? ==> error.value == ResolveMessage
    {
      var found := Find(engine, d);
      if found.None? {
        return Some(ResolveMessage);
      }
      error := None;
    }
  }

  /** Adding then removing a dependency leaves the engine table as it was. */
  method AddThenRemove(d: Dep, engine: seq<Entry>) returns (after: seq<Entry>)
    requires !NeedsExpansion(d)
    requires forall i :: 0 <= i < |engine| ==> engine[i].key != d
    ensures after == engine
  {
    var a := new Applier();
    a.engine := engine;
    var e := a.AddObject(d);
    assert Find(a.engine, d) == Some(|engine|) by {
      FindAfterAbsent(engine, Entry(d, Created(d)));
    }
    a.RemoveObject(d);
    assert (engine + [Entry(d, Created(d))])[..|engine|] == engine;
    after := a.engine;
  }

  lemma {:induction false} FindAfterAbsent(engine: seq<Entry>, x: Entry)
    requires forall i :: 0 <= i < |engine| ==> engine[i].key != x.key
    ensures Find(engine + [x], x.key) == Some(|engine|)
    decreases |engine|
  {
    if engine != [] {
      assert (engine + [x])[1..] == engine[1..] + [x];
      FindAfterAbsent(engine[1..], x);
    }
  }

  // ---------------------------------------------------------------------
  // Expansion
  // ---------------------------------------------------------------------

  /** A (host name, service description) pair. */
  type Pair = (string, string)

  /** The groups expansion looks names up in: host-group members and service-group members. */
  datatype Groups = Groups(hostgroups: map<string, set<string>>, servicegroups: map<string, set<Pair>>)

  /** The first name of `names` that `known` lacks. */
  function FirstMissing<V>(names: seq<string>, known: map<string, V>): (r: Option<string>)
    ensures r.None? <==> forall i :: 0 <= i < |names| ==> names[i] in known
    ensures r.Some? ==> r.value !in known && exists i :: 0 <= i < |names| && names[i] == r.value
  {
    if names == [] then None
    else if names[0] !in known then Some(names[0])
    else FirstMissing(names[1..], known)
  }

  function Elements(s: seq<string>): set<string>
  {
    set i | 0 <= i < |s| :: s[i]
  }

  /** The listed hosts and every member of the named host groups. */
  ghost function AllHosts(hst: seq<string>, hg: seq<string>, groups: map<string, set<string>>): set<string>
  {
    Elements(hst) + (set i, h | 0 <= i < |hg| && hg[i] in groups && h in groups[hg[i]] :: h)
  }

  /** Every member of the named service groups. */
  ghost function GroupServices(sg: seq<string>, groups: map<string, set<Pair>>): set<Pair>
  {
    set i, p | 0 <= i < |sg| && sg[i] in groups && p in groups[sg[i]] :: p
  }

  /** `_expand_services`: hosts times services, plus the service-group members; an unknown group fails. */
  ghost function ExpandServicesSpec(hst: seq<string>, hg: seq<string>, svc: seq<string>, sg: seq<string>,
                                    g: Groups): (r: Result<set<Pair>>)
    ensures r.Ok? <==> FirstMissing(hg, g.hostgroups).None? && FirstMissing(sg, g.servicegroups).None?
  {
    match FirstMissing(hg, g.hostgroups)
    case Some(n) => Err("Could not resolve host group '" + n + "'")
    case None =>
      match FirstMissing(sg, g.servicegroups)
      case Some(n) => Err("Could not resolve service group '" + n + "'")
      case None =>
        Ok((set h, s | h in AllHosts(hst, hg, g.hostgroups) && s in Elements(svc) :: (h, s))
           + GroupServices(sg, g.servicegroups))
  }

  /** What the expansion holds, pair by pair. */
  lemma ExpandServicesMembers(hst: seq<string>, hg: seq<string>, svc: seq<string>, sg: seq<string>,
                              g: Groups, p: Pair)
    requires ExpandServicesSpec(hst, hg, svc, sg, g).Ok?
    ensures p in ExpandServicesSpec(hst, hg, svc, sg, g).value <==>
      || ((p.0 in hst || (exists i :: 0 <= i < |hg| && p.0 in g.hostgroups[hg[i]])) && p.1 in svc)
      || (exists i :: 0 <= i < |sg| && p in g.servicegroups[sg[i]])
  {
    var r := ExpandServicesSpec(hst, hg, svc, sg, g).value;
    if p.0 in hst {
      var k :| 0 <= k < |hst| && hst[k] == p.0;
      assert p.0 in Elements(hst);
    }
    if p.1 in svc {
      var k :| 0 <= k < |svc| && svc[k] == p.1;
      assert p.1 in Elements(svc);
    }
  }

  /** An unknown host group makes the expansion fail with its name. */
  lemma UnknownHostgroupFails(hst: seq<string>, hg: seq<string>, svc: seq<string>, sg: seq<string>,
                              g: Groups)
    requires exists i :: 0 <= i < |hg| && hg[i] !in g.hostgroups
    ensures ExpandServicesSpec(hst, hg, svc, sg, g).Err?
  {
  }

  /** Adds to `acc` the pairs of `host` with every service description of `svc`. */
  method AddHostServices(host: string, svc: seq<string>, acc: set<Pair>) returns (result: set<Pair>)
    ensures result == acc + (set s | s in Elements(svc) :: (host, s))
  {
    result := acc;
    var j := 0;
    while j < |svc|
      invariant 0 <= j <= |svc|
      invariant result == acc + (set k | 0 <= k < j :: (host, svc[k]))
      decreases |svc| - j
    {
      result := result + {(host, svc[j])};
      j := j + 1;
      assert (set k | 0 <= k < j :: (host, svc[k])) == (set k | 0 <= k < j - 1 :: (host, svc[k])) + {(host, svc[j - 1])};
    }
    assert (set k | 0 <= k < |svc| :: (host, svc[k])) == (set s | s in Elements(svc) :: (host, s));
  }

  /** The host set: the listed hosts, then each host group's members; an unknown group stops it. */
  method CollectHosts(hst: seq<string>, hg: seq<string>, groups: map<string, set<string>>)
    returns (hosts: set<string>, missing: Option<string>)
    ensures missing == FirstMissing(hg, groups)
    ensures missing.None? ==> hosts == AllHosts(hst, hg, groups)
  {
    hosts := Elements(hst);
    var i := 0;
    while i < |hg|
      invariant 0 <= i <= |hg|
      invariant forall k :: 0 <= k < i ==> hg[k] in groups
      invariant hosts == Elements(hst) + (set k, h | 0 <= k < i && hg[k] in groups && h in groups[hg[k]] :: h)
      decreases |hg| - i
    {
      if hg[i] !in groups {
        FirstMissingAt(hg, groups, i);
        return hosts, Some(hg[i]);
      }
      hosts := hosts + groups[hg[i]];
      i := i + 1;
      assert (set k, h | 0 <= k < i && hg[k] in groups && h in groups[hg[k]] :: h)
        == (set k, h | 0 <= k < i - 1 && hg[k] in groups && h in groups[hg[k]] :: h) + groups[hg[i - 1]];
    }
    missing := None;
    assert FirstMissing(hg, groups).None?;
  }

  /** The first missing name is the first index whose name is missing. */
  lemma {:induction false} FirstMissingAt<V>(names: seq<string>, known: map<string, V>, i: nat)
    requires i < |names| && names[i] !in known
    requires forall k :: 0 <= k < i ==> names[k] in known
    ensures FirstMissing(names, known) == Some(names[i])
    decreases i
  {
    if i > 0 {
      FirstMissingAt(names[1..], known, i - 1);
    }
  }

  /** The members of the named service groups; an unknown group stops it. */
  method CollectGroupServices(sg: seq<string>, groups: map<string, set<Pair>>, acc: set<Pair>)
    returns (result: set<Pair>, missing: Option<string>)
    ensures missing == FirstMissing(sg, groups)
    ensures missing.None? ==> result == acc + GroupServices(sg, groups)
  {
    result := acc;
    var i := 0;
    while i < |sg|
      invariant 0 <= i <= |sg|
      invariant forall k :: 0 <= k < i ==> sg[k] in groups
      invariant result == acc + (set k, p | 0 <= k < i && sg[k] in groups && p in groups[sg[k]] :: p)
      decreases |sg| - i
    {
      if sg[i] !in groups {
        FirstMissingAt(sg, groups, i);
        return result, Some(sg[i]);
      }
      result := result + groups[sg[i]];
      i := i + 1;
      assert (set k, p | 0 <= k < i && sg[k] in groups && p in groups[sg[k]] :: p)
        == (set k, p | 0 <= k < i - 1 && sg[k] in groups && p in groups[sg[k]] :: p) + groups[sg[i - 1]];
    }
    missing := None;
    assert FirstMissing(sg, groups).None?;
  }

  /** `_expand_services`. */
  method ExpandServices(hst: seq<string>, hg: seq<string>, svc: seq<string>, sg: seq<string>, g: Groups)
    returns (result: Result<set<Pair>>)
    ensures result == ExpandServicesSpec(hst, hg, svc, sg, g)
  {
    var hosts, missing := CollectHosts(hst, hg, g.hostgroups);
    if missing.Some? {
      return Err("Could not resolve host group '" + missing.value + "'");
    }
    var expanded: set<Pair> := {};
    var left := hosts;
    while left != {}
      invariant left <= hosts
      invariant expanded == (set h, s | h in hosts - left && s in Elements(svc) :: (h, s))
      decreases left
    {
      var h :| h in left;
      expanded := AddHostServices(h, svc, expanded);
      assert (set x, s | x in hosts - (left - {h}) && s in Elements(svc) :: (x, s))
        == (set x, s | x in hosts - left && s in Elements(svc) :: (x, s)) + (set s | s in Elements(svc) :: (h, s));
      left := left - {h};
    }
    assert hosts - left == hosts;
    var all, missingGroup := CollectGroupServices(sg, g.servicegroups, expanded);
    if missingGroup.Some? {
      return Err("Could not resolve service group '" + missingGroup.value + "'");
    }
    result := Ok(all);
  }

  /** One expanded dependency: one depended service, one dependent service, and one kind. */
  function Instance(d: Dep, depended: Pair, dependent: Pair, execution: bool): (x: Dep)
    ensures OneToOne(x) && x.depType != UnknownType
    ensures x.hosts == [depended.0] && x.services == [depended.1]
    ensures x.dependentHosts == [dependent.0] && x.dependentServices == [dependent.1]
    ensures execution ==> x.depType == ExecutionDependency && x.notificationOptions == 0
                          && x.executionOptions == d.executionOptions
    ensures !execution ==> x.depType == NotificationDependency && x.executionOptions == 0
                           && x.notificationOptions == d.notificationOptions
    ensures x.inheritsParent == d.inheritsParent && x.period == d.period
  {
    d.(hostgroups := [], hosts := [depended.0], servicegroups := [], services := [depended.1],
       dependentHostgroups := [], dependentHosts := [dependent.0], dependentServicegroups := [],
       dependentServices := [dependent.1],
       depType := if execution then ExecutionDependency else NotificationDependency,
       notificationOptions := if execution then 0 else d.notificationOptions,
       executionOptions := if execution then d.executionOptions else 0)
  }

  /** Every (depended, dependent) pair, once as an execution and once as a notification dependency. */
  ghost function Instances(d: Dep, depended: set<Pair>, dependent: set<Pair>): set<Dep>
  {
    (set p1, p2 | p1 in depended && p2 in dependent :: Instance(d, p1, p2, true))
    + (set p1, p2 | p1 in depended && p2 in dependent :: Instance(d, p1, p2, false))
  }

  /** What one configured dependency becomes under `expand_objects`. */
  ghost function ExpandOne(d: Dep, g: Groups): (r: Result<set<Dep>>)
    ensures r.Err? ==> NeedsExpansion(d)
  {
    if !NeedsExpansion(d) then Ok({d})
    else
      match ExpandServicesSpec(d.hosts, d.hostgroups, d.services, d.servicegroups, g)
      case Err(e) => Err(e)
      case Ok(depended) =>
        match ExpandServicesSpec(d.dependentHosts, d.dependentHostgroups, d.dependentServices,
                                 d.dependentServicegroups, g)
        case Err(e) => Err(e)
        case Ok(dependent) => Ok(Instances(d, depended, dependent))
  }

  /** The union of the expansions of the dependencies in `deps` that succeed. */
  ghost function Collect(deps: set<Dep>, g: Groups): (r: set<Dep>)
    ensures forall x :: x in r ==> !NeedsExpansion(x)
  {
    set d, x | d in deps && ExpandOne(d, g).Ok? && x in ExpandOne(d, g).value :: x
  }

  /** Every expanded dependency is one-to-one and of a known kind. */
  lemma ExpandOneIsOneToOne(d: Dep, g: Groups, x: Dep)
    requires ExpandOne(d, g).Ok? && x in ExpandOne(d, g).value
    ensures !NeedsExpansion(x)
  {
  }

  /** Both kinds are created for every pair of expanded services. */
  lemma ExpandOneBothKinds(d: Dep, g: Groups, depended: Pair, dependent: Pair)
    requires NeedsExpansion(d) && ExpandOne(d, g).Ok?
    requires depended in ExpandServicesSpec(d.hosts, d.hostgroups, d.services, d.servicegroups, g).value
    requires ExpandServicesSpec(d.dependentHosts, d.dependentHostgroups, d.dependentServices,
                                d.dependentServicegroups, g).Ok?
    requires dependent in ExpandServicesSpec(d.dependentHosts, d.dependentHostgroups, d.dependentServices,
                                             d.dependentServicegroups, g).value
    ensures Instance(d, depended, dependent, true) in ExpandOne(d, g).value
    ensures Instance(d, depended, dependent, false) in ExpandOne(d, g).value
  {
  }

  /** After expansion every dependency in the state is one-to-one, of a known kind, and accepted by `add_object`. */
  lemma CollectAccepted(deps: set<Dep>, g: Groups, x: Dep)
    requires x in Collect(deps, g)
    ensures !NeedsExpansion(x) && AddCheck(x).None?
  {
    var d :| d in deps && ExpandOne(d, g).Ok? && x in ExpandOne(d, g).value;
    ExpandOneIsOneToOne(d, g, x);
  }

  /** A dependency that is already one-to-one is kept unchanged. */
  lemma CollectKeeps(deps: set<Dep>, g: Groups, d: Dep)
    requires d in deps && !NeedsExpansion(d)
    ensures d in Collect(deps, g)
  {
    assert d in ExpandOne(d, g).value;
  }

  /** Expanding an expanded set changes nothing. */
  lemma CollectIdempotent(deps: set<Dep>, g: Groups)
    ensures Collect(Collect(deps, g), g) == Collect(deps, g)
  {
    var c := Collect(deps, g);
    forall x | x in Collect(c, g)
      ensures x in c
    {
      var d :| d in c && ExpandOne(d, g).Ok? && x in ExpandOne(d, g).value;
      CollectAccepted(deps, g, d);
    }
    forall x | x in c
      ensures x in Collect(c, g)
    {
      CollectAccepted(deps, g, x);
      CollectKeeps(c, g, x);
    }
  }

  /** Adding one dependency to those already expanded. */
  lemma CollectAdd(done: set<Dep>, d: Dep, g: Groups)
    requires ExpandOne(d, g).Ok?
    ensures Collect(done + {d}, g) == Collect(done, g) + ExpandOne(d, g).value
  {
  }

  /** The configuration state's service dependencies, with the groups they are expanded against. */
  class State {
    var servicedependencies: set<Dep>
    var groups: Groups

    constructor (deps: set<Dep>, groups: Groups)
      ensures servicedependencies == deps && this.groups == groups
    {
      servicedependencies := deps;
      this.groups := groups;
    }
  }

  /**
   * `expand_objects`: on success the state holds the expansion of all its
   * dependencies; when one fails, the state is left as it was and the error
   * is that of a failing dependency.
   */
  method ExpandObjects(s: State) returns (error: Option<string>)
    modifies s
    ensures s.groups == old(s.groups)
    ensures error.Some? <==> exists d :: d in old(s.servicedependencies) && ExpandOne(d, s.groups).Err?
    ensures error.Some? ==>
      && s.servicedependencies == old(s.servicedependencies)
      && exists d :: d in old(s.servicedependencies) && ExpandOne(d, s.groups) == Err(error.value)
    ensures error.None? ==> s.servicedependencies == Collect(old(s.servicedependencies), s.groups)
  {
    var expanded: set<Dep> := {};
    var left := s.servicedependencies;
    while left != {}
      invariant left <= s.servicedependencies
      invariant s.servicedependencies == old(s.servicedependencies) && s.groups == old(s.groups)
      invariant forall d :: d in s.servicedependencies - left ==> ExpandOne(d, s.groups).Ok?
      invariant expanded == Collect(s.servicedependencies - left, s.groups)
      decreases left
    {
      var d :| d in left;
      var one := ExpandDependency(d, s.groups);
      if one.Err? {
        return Some(one.error);
      }
      CollectAdd(s.servicedependencies - left, d, s.groups);
      assert s.servicedependencies - (left - {d}) == (s.servicedependencies - left) + {d};
      expanded := expanded + one.value;
      left := left - {d};
    }
    assert s.servicedependencies - left == s.servicedependencies;
    s.servicedependencies := expanded;
    error := None;
  }

  /** The expansion of one configured dependency, as the body of the loop over the state computes it. */
  method ExpandDependency(d: Dep, g: Groups) returns (r: Result<set<Dep>>)
    ensures r == ExpandOne(d, g)
  {
    if !NeedsExpansion(d) {
      return Ok({d});
    }
    var depended := ExpandServices(d.hosts, d.hostgroups, d.services, d.servicegroups, g);
    if depended.Err? {
      return Err(depended.error);
    }
    var dependent := ExpandServices(d.dependentHosts, d.dependentHostgroups, d.dependentServices,
                                    d.dependentServicegroups, g);
    if dependent.Err? {
      return Err(dependent.error);
    }
    r := InstancesOf(d, depended.value, dependent.value);
  }

  /** The nested loops over depended and dependent services, each pair giving both kinds. */
  method InstancesOf(d: Dep, depended: set<Pair>, dependent: set<Pair>) returns (r: Result<set<Dep>>)
    ensures r == Ok(Instances(d, depended, dependent))
  {
    var expanded: set<Dep> := {};
    var left1 := depended;
    while left1 != {}
      invariant left1 <= depended
      invariant expanded == Instances(d, depended - left1, dependent)
      decreases left1
    {
      var p1 :| p1 in left1;
      var left2 := dependent;
      ghost var before := expanded;
      while left2 != {}
        invariant left2 <= dependent
        invariant expanded == before + Instances(d, {p1}, dependent - left2)
        decreases left2
      {
        var p2 :| p2 in left2;
        expanded := expanded + {Instance(d, p1, p2, true), Instance(d, p1, p2, false)};
        InstancesAddDependent(d, p1, dependent - left2, p2);
        assert dependent - (left2 - {p2}) == (dependent - left2) + {p2};
        left2 := left2 - {p2};
      }
      assert dependent - left2 == dependent;
      InstancesAddDepended(d, depended - left1, p1, dependent);
      assert depended - (left1 - {p1}) == (depended - left1) + {p1};
      left1 := left1 - {p1};
    }
    assert depended - left1 == depended;
    r := Ok(expanded);
  }

  lemma InstancesAddDependent(d: Dep, p1: Pair, done: set<Pair>, p2: Pair)
    ensures Instances(d, {p1}, done + {p2})
      == Instances(d, {p1}, done) + {Instance(d, p1, p2, true), Instance(d, p1, p2, false)}
  {
  }

  lemma InstancesAddDepended(d: Dep, done: set<Pair>, p1: Pair, dependent: set<Pair>)
    ensures Instances(d, done + {p1}, dependent) == Instances(d, done, dependent) + Instances(d, {p1}, dependent)
  {
  }
}
