/**
 * The Graphite macro cache: tables of instances, hosts, services, index
 * mappings and metric mappings, filled from the event stream and read when
 * metric paths are built. Each table is keyed by the event's id; a later event
 * with the same id replaces the earlier one, and a lookup of an absent id fails.
 */
module GraphiteMacroCache {
  import opened Common

  datatype IndexMapping = IndexMapping(indexId: nat, hostId: nat, serviceId: nat)
  datatype MetricMapping = MetricMapping(metricId: nat, indexId: nat)

  /** The events the cache reacts to; `Other` stands for every other event type. */
  datatype Event =
    | Instance(pollerId: nat, name: string)
    | Host(hostId: nat, hostName: string)
    | PbHost(pbHostId: nat, pbHostName: string)
    | Service(hostId: nat, serviceId: nat, description: string)
    | PbService(pbHostId: nat, pbServiceId: nat, pbDescription: string)
    | IndexMappingEvent(index: IndexMapping)
    | MetricMappingEvent(metric: MetricMapping)
    | Other(typeId: nat)

  /** The five tables, as a value. */
  datatype Tables = Tables(
    instances: map<nat, Event>,
    hosts: map<nat, Event>,
    services: map<(nat, nat), Event>,
    indexMappings: map<nat, IndexMapping>,
    metricMappings: map<nat, MetricMapping>)

  const EmptyTables := Tables(map[], map[], map[], map[], map[])

  /** The effect of writing one event (or a null pointer, `None`): the cache never forgets an entry. */
  function Apply(t: Tables, data: Option<Event>): (r: Tables)
    ensures t.instances.Keys <= r.instances.Keys && t.hosts.Keys <= r.hosts.Keys
    ensures t.services.Keys <= r.services.Keys
    ensures t.indexMappings.Keys <= r.indexMappings.Keys && t.metricMappings.Keys <= r.metricMappings.Keys
  {
    match data
    case None => t
    case Some(e) =>
      match e
      case Instance(id, _) => t.(instances := t.instances[id := e])
      case Host(id, _) => t.(hosts := t.hosts[id := e])
      case PbHost(id, _) => t.(hosts := t.hosts[id := e])
      case Service(h, s, _) => t.(services := t.services[(h, s) := e])
      case PbService(h, s, _) => t.(services := t.services[(h, s) := e])
      case IndexMappingEvent(m) => t.(indexMappings := t.indexMappings[m.indexId := m])
      case MetricMappingEvent(m) => t.(metricMappings := t.metricMappings[m.metricId := m])
      case Other(_) => t
  }

  /** The name a stored host event carries (old-style or protobuf host). */
  function StoredHostName(e: Event): string
  {
    match e
    case Host(_, n) => n
    case PbHost(_, n) => n
    case _ => ""
  }

  /** The description a stored service event carries. */
  function StoredDescription(e: Event): string
  {
    match e
    case Service(_, _, d) => d
    case PbService(_, _, d) => d
    case _ => ""
  }

  function StoredInstanceName(e: Event): string
  {
    if e.Instance? then e.name else ""
  }

  function IndexMappingOf(t: Tables, indexId: nat): (r: Result<IndexMapping>)
    ensures r.Ok? <==> indexId in t.indexMappings
    ensures r.Ok? ==> r.value == t.indexMappings[indexId]
  {
    if indexId in t.indexMappings then Ok(t.indexMappings[indexId])
    else Err("graphite: could not find host/service of index " + NatToString(indexId))
  }

  function MetricMappingOf(t: Tables, metricId: nat): (r: Result<MetricMapping>)
    ensures r.Ok? <==> metricId in t.metricMappings
    ensures r.Ok? ==> r.value == t.metricMappings[metricId]
  {
    if metricId in t.metricMappings then Ok(t.metricMappings[metricId])
    else Err("graphite: could not find index of metric " + NatToString(metricId))
  }

  function HostNameOf(t: Tables, hostId: nat): (r: Result<string>)
    ensures r.Ok? <==> hostId in t.hosts
    ensures r.Ok? ==> r.value == StoredHostName(t.hosts[hostId])
  {
    if hostId in t.hosts then Ok(StoredHostName(t.hosts[hostId]))
    else Err("graphite: could not find information on host " + NatToString(hostId))
  }

  function ServiceDescriptionOf(t: Tables, hostId: nat, serviceId: nat): (r: Result<string>)
    ensures r.Ok? <==> (hostId, serviceId) in t.services
    ensures r.Ok? ==> r.value == StoredDescription(t.services[(hostId, serviceId)])
  {
    if (hostId, serviceId) in t.services then Ok(StoredDescription(t.services[(hostId, serviceId)]))
    else Err("graphite: could not find information on service (" + NatToString(hostId) + ", " + NatToString(serviceId) + ")")
  }

  function InstanceNameOf(t: Tables, instanceId: nat): (r: Result<string>)
    ensures r.Ok? <==> instanceId in t.instances
    ensures r.Ok? ==> r.value == StoredInstanceName(t.instances[instanceId])
  {
    if instanceId in t.instances then Ok(StoredInstanceName(t.instances[instanceId]))
    else Err("graphite: could not find information on instance " + NatToString(instanceId))
  }

  /** Null data and unrecognised event types leave every table as it was. */
  lemma IgnoredEvents(t: Tables, typeId: nat)
    ensures Apply(t, None) == t
    ensures Apply(t, Some(Other(typeId))) == t
  {
  }

  /** After writing a host, old-style or protobuf, its name is what a lookup returns. */
  lemma HostWriteThenRead(t: Tables, e: Event)
    requires e.Host? || e.PbHost?
    ensures e.Host? ==> HostNameOf(Apply(t, Some(e)), e.hostId) == Ok(e.hostName)
    ensures e.PbHost? ==> HostNameOf(Apply(t, Some(e)), e.pbHostId) == Ok(e.pbHostName)
  {
  }

  /** After writing a service, its description is what a lookup returns. */
  lemma ServiceWriteThenRead(t: Tables, e: Event)
    requires e.Service? || e.PbService?
    ensures e.Service? ==>
      ServiceDescriptionOf(Apply(t, Some(e)), e.hostId, e.serviceId) == Ok(e.description)
    ensures e.PbService? ==>
      ServiceDescriptionOf(Apply(t, Some(e)), e.pbHostId, e.pbServiceId) == Ok(e.pbDescription)
  {
  }

  /**
   * `host` and `pb_host` share one table: whichever was written last for an id
   * gives the name.
   */
  lemma HostLastWriteWins(t: Tables, id: nat, first: string, second: string, secondIsPb: bool)
    ensures var e1 := if secondIsPb then Host(id, first) else PbHost(id, first);
            var e2 := if secondIsPb then PbHost(id, second) else Host(id, second);
            HostNameOf(Apply(Apply(t, Some(e1)), Some(e2)), id) == Ok(second)
  {
  }

  /** `service` and `pb_service` share one table keyed by (host id, service id). */
  lemma ServiceLastWriteWins(t: Tables, h: nat, s: nat, first: string, second: string)
    ensures ServiceDescriptionOf(Apply(Apply(t, Some(PbService(h, s, first))), Some(Service(h, s, second))), h, s) == Ok(second)
    ensures ServiceDescriptionOf(Apply(Apply(t, Some(Service(h, s, first))), Some(PbService(h, s, second))), h, s) == Ok(second)
  {
  }

  /** A host event for another id leaves a host lookup unchanged. */
  lemma HostWriteOtherId(t: Tables, e: Event, id: nat)
    requires (e.Host? && e.hostId != id) || (e.PbHost? && e.pbHostId != id) || !(e.Host? || e.PbHost?)
    ensures HostNameOf(Apply(t, Some(e)), id) == HostNameOf(t, id)
  {
  }

  /** An index mapping lookup answers the latest mapping written for that index. */
  lemma IndexMappingLastWriteWins(t: Tables, m1: IndexMapping, m2: IndexMapping)
    requires m1.indexId == m2.indexId
    ensures IndexMappingOf(Apply(Apply(t, Some(IndexMappingEvent(m1))), Some(IndexMappingEvent(m2))), m1.indexId) == Ok(m2)
  {
  }

  class MacroCache {
    var instances: map<nat, Event>
    var hosts: map<nat, Event>
    var services: map<(nat, nat), Event>
    var indexMappings: map<nat, IndexMapping>
    var metricMappings: map<nat, MetricMapping>

    function Snapshot(): Tables
      reads this
    {
      Tables(instances, hosts, services, indexMappings, metricMappings)
    }

    constructor ()
      ensures Snapshot() == EmptyTables
    {
      instances, hosts, services, indexMappings, metricMappings := map[], map[], map[], map[], map[];
    }

    /** Dispatches on the event type and stores the event under its id. */
    method Write(data: Option<Event>)
      modifies this
      ensures Snapshot() == Apply(old(Snapshot()), data)
    {
      if data == None {
        return;
      }
      var e := data.value;
      match e {
        case Instance(id, _) => instances := instances[id := e];
        case Host(id, _) => hosts := hosts[id := e];
        case PbHost(id, _) => hosts := hosts[id := e];
        case Service(h, s, _) => services := services[(h, s) := e];
        case PbService(h, s, _) => services := services[(h, s) := e];
        case IndexMappingEvent(m) => indexMappings := indexMappings[m.indexId := m];
        case MetricMappingEvent(m) => metricMappings := metricMappings[m.metricId := m];
        case Other(_) =>
      }
    }

    method GetIndexMapping(indexId: nat) returns (r: Result<IndexMapping>)
      ensures r.Ok? <==> indexId in indexMappings
      ensures r.Ok? ==> r.value == indexMappings[indexId]
    {
      r := IndexMappingOf(Snapshot(), indexId);
    }

    method GetMetricMapping(metricId: nat) returns (r: Result<MetricMapping>)
      ensures r.Ok? <==> metricId in metricMappings
      ensures r.Ok? ==> r.value == metricMappings[metricId]
    {
      r := MetricMappingOf(Snapshot(), metricId);
    }

    method GetHostName(hostId: nat) returns (r: Result<string>)
      ensures r.Ok? <==> hostId in hosts
      ensures r.Ok? ==> r.value == StoredHostName(hosts[hostId])
    {
      r := HostNameOf(Snapshot(), hostId);
    }

    method GetServiceDescription(hostId: nat, serviceId: nat) returns (r: Result<string>)
      ensures r.Ok? <==> (hostId, serviceId) in services
      ensures r.Ok? ==> r.value == StoredDescription(services[(hostId, serviceId)])
    {
      r := ServiceDescriptionOf(Snapshot(), hostId, serviceId);
    }

    method GetInstance(instanceId: nat) returns (r: Result<string>)
      ensures r.Ok? <==> instanceId in instances
      ensures r.Ok? ==> r.value == StoredInstanceName(instances[instanceId])
    {
      r := InstanceNameOf(Snapshot(), instanceId);
    }
  }
}
