/**
 The DNS service-discovery source (`DnsServiceDiscovery`): it holds the
 parsed configuration and the current list of services, builds a new list
 from the resolver's answers, and pushes join/drain events onto the queue it
 is started with. The resolver's answers are passed in, one per entry.
 */
module SdDns {
  import opened Optional
  import opened AddressFamily
  import opened ServiceModel
  import opened ArrayDiff
  import opened Builder
  import opened Reconcile

  /** The consumer's queue handed to `start`; the source only appends. */
  class EventQueue {
    var items: seq<Event>

    constructor ()
      ensures items == []
    {
      items := [];
    }

    method Push(e: Event)
      modifies this
      ensures items == old(items) + [e]
    {
      items := items + [e];
    }
  }

  /** Why `configure` failed: a configuration error, or the resolver error
      raised by the first build. */
  datatype ConfigureError = InvalidConfig(message: string) | ResolverFailed(message: string)

  /** The error reported when no `<entry>` section is given. */
  const NoEntryMessage: string := "'<entry>' sections are required"

  /** An entry section with its address family converted. */
  function ConvertEntry(raw: RawEntry, family: Family): Entry
  {
    Entry(raw.host, raw.port, family, raw.sharedKey, raw.username, raw.password, raw.weight)
  }

  /** Converts the address family of every entry section, in order; the first
      value that is not `ipv4`/`ipv6` (in any case) is a configuration error,
      reported with that value's message. */
  function ParseEntries(raw: seq<RawEntry>): (r: Parsed<seq<Entry>>)
    ensures r.Ok? <==> forall k :: 0 <= k < |raw| ==> ParseFamily(raw[k].addressFamily).Ok?
    ensures r.Ok? ==> |r.value| == |raw|
    ensures r.Ok? ==> forall k :: 0 <= k < |raw| ==>
              r.value[k] == ConvertEntry(raw[k], ParseFamily(raw[k].addressFamily).value)
    ensures r.ConfigError? ==>
              exists k :: 0 <= k < |raw| && ParseFamily(raw[k].addressFamily) == ConfigError(r.message) &&
                forall j :: 0 <= j < k ==> ParseFamily(raw[j].addressFamily).Ok?
  {
    if raw == [] then Ok([])
    else
      match ParseFamily(raw[0].addressFamily)
      case ConfigError(m) => ConfigError(m)
      case Ok(family) =>
        match ParseEntries(raw[1..])
        case ConfigError(m) => ConfigError(m)
        case Ok(rest) => Ok([ConvertEntry(raw[0], family)] + rest)
  }

  /** The builds that several rounds of resolver answers give. */
  function Builds(entries: seq<Entry>, rounds: seq<seq<Resolution>>, ignoreDnsError: bool): (bs: seq<BuildResult>)
    requires forall r :: 0 <= r < |rounds| ==> |rounds[r]| == |entries|
    ensures |bs| == |rounds|
  {
    seq(|rounds|, r requires 0 <= r < |rounds| => BuildServiceList(entries, rounds[r], ignoreDnsError))
  }

  class DnsServiceDiscovery {
    /** `ignore_dns_error` */
    var ignoreDnsError: bool
    /** `interval` in seconds; absent means a single refresh at start. */
    var interval: Option<real>
    /** `entry_configs` */
    var entryConfigs: seq<Entry>
    /** `@services`: the services currently known. */
    var services: seq<Service>
    /** The queue the registered repeating refresh pushes onto: the one
        `start` was given. `null` while no timer is registered. */
    var timerQueue: EventQueue?

    constructor ()
      ensures !ignoreDnsError && interval == None && entryConfigs == []
      ensures services == [] && timerQueue == null
    {
      ignoreDnsError, interval, entryConfigs := false, None, [];
      services, timerQueue := [], null;
    }

    /** `configure`: takes the parameters, converts the entry sections and
        builds the first list of services with `answers`. A configuration
        error leaves the object as it was; a resolver error that is not
        ignored keeps the configuration but leaves `services` as it was. */
    method Configure(ignore: bool, every: Option<real>, raw: seq<RawEntry>, answers: seq<Resolution>)
        returns (err: Option<ConfigureError>)
      requires |answers| == |raw|
      modifies this
      ensures timerQueue == old(timerQueue)
      ensures raw == [] ==> err == Some(InvalidConfig(NoEntryMessage))
      ensures raw != [] && ParseEntries(raw).ConfigError? ==>
                err == Some(InvalidConfig(ParseEntries(raw).message))
      ensures err.Some? && err.value.InvalidConfig? ==>
                ignoreDnsError == old(ignoreDnsError) && interval == old(interval) &&
                entryConfigs == old(entryConfigs) && services == old(services)
      ensures raw != [] && ParseEntries(raw).Ok? ==>
                ignoreDnsError == ignore && interval == every && entryConfigs == ParseEntries(raw).value &&
                var built := BuildServiceList(entryConfigs, answers, ignore);
                if built.Raised? then err == Some(ResolverFailed(built.error)) && services == old(services)
                else err == None && services == built.services
    {
      if raw == [] {
        return Some(InvalidConfig(NoEntryMessage));
      }
      var parsed := ParseEntries(raw);
      if parsed.ConfigError? {
        return Some(InvalidConfig(parsed.message));
      }
      ignoreDnsError, interval, entryConfigs := ignore, every, parsed.value;
      var built := FetchServices(answers);
      if built.Raised? {
        return Some(ResolverFailed(built.error));
      }
      services := built.services;
      err := None;
    }

    /** `start`: without an interval, one refresh with `answers`; with one,
        registers the repeating refresh onto `queue` (see TimerFires) and
        refreshes nothing yet. */
    method Start(queue: EventQueue, answers: seq<Resolution>)
      requires |answers| == |entryConfigs|
      modifies this`services, this`timerQueue, queue
      ensures interval.None? ==>
                var c := Refresh(old(services), BuildServiceList(entryConfigs, answers, ignoreDnsError));
                services == c.services && queue.items == old(queue.items) + c.events &&
                timerQueue == old(timerQueue)
      ensures interval.Some? ==>
                timerQueue == queue && services == old(services) && queue.items == old(queue.items)
    {
      if interval.Some? {
        timerQueue := queue;
      } else {
        RefreshOnce(queue, answers);
      }
    }

    /** The registered timer firing once per round of answers, each firing
        running one refresh to completion, onto the queue `start` was given,
        before the next. */
    method TimerFires(rounds: seq<seq<Resolution>>)
      requires timerQueue != null
      requires forall r :: 0 <= r < |rounds| ==> |rounds[r]| == |entryConfigs|
      modifies this`services, timerQueue
      ensures var run := Run(old(services), Builds(entryConfigs, rounds, ignoreDnsError));
        services == run.services && timerQueue.items == old(timerQueue.items) + run.events
    {
      var queue := timerQueue;
      var bs := Builds(entryConfigs, rounds, ignoreDnsError);
      ghost var start, queued := services, queue.items;
      for r := 0 to |rounds|
        invariant services == Run(start, bs[..r]).services
        invariant queue.items == queued + Run(start, bs[..r]).events
      {
        ghost var before, beforeQueue := services, queue.items;
        RefreshOnce(queue, rounds[r]);
        RunStep(start, bs, r, queued, before, beforeQueue, services, queue.items);
      }
      assert bs[..|rounds|] == bs;
    }

    /** `refresh_service_list`: builds a new list; if that raises or finds no
        service nothing changes; otherwise the new list replaces `services`
        and the joins, then the drains, are pushed onto `queue`. */
    method RefreshOnce(queue: EventQueue, answers: seq<Resolution>)
      requires |answers| == |entryConfigs|
      modifies this`services, queue
      ensures var c := Refresh(old(services), BuildServiceList(entryConfigs, answers, ignoreDnsError));
        services == c.services && queue.items == old(queue.items) + c.events
    {
      var oldServices := services;
      var built := FetchServices(answers);
      if built.Raised? {
        return;
      }
      var newServices := built.services;
      if newServices == [] {
        return;
      }
      var diff: seq<Event> := [];
      var join := Minus(newServices, oldServices);
      for i := 0 to |join|
        invariant diff == Ins(join[..i])
      {
        diff := diff + [ServiceIn(join[i])];
      }
      assert join[..|join|] == join;
      var drain := Minus(oldServices, newServices);
      for i := 0 to |drain|
        invariant diff == Ins(join) + Outs(drain[..i])
      {
        diff := diff + [ServiceOut(drain[i])];
      }
      assert drain[..|drain|] == drain;
      assert diff == Diff(oldServices, newServices);
      services := newServices;
      for i := 0 to |diff|
        invariant services == newServices
        invariant queue.items == old(queue.items) + diff[..i]
      {
        queue.Push(diff[i]);
      }
      assert diff[..|diff|] == diff;
    }

    /** `fetch_services_from_dns`: walks the entries in order; a failed entry
        is skipped when errors are ignored and otherwise raises at once; the
        i-th answer of an entry becomes the service named "i-host". */
    method FetchServices(answers: seq<Resolution>) returns (r: BuildResult)
      requires |answers| == |entryConfigs|
      ensures r == BuildServiceList(entryConfigs, answers, ignoreDnsError)
    {
      var serviceList: seq<Service> := [];
      var k := 0;
      while k < |entryConfigs|
        invariant 0 <= k <= |entryConfigs|
        invariant BuildServiceList(entryConfigs[..k], answers[..k], ignoreDnsError) == Built(serviceList)
      {
        var conf := entryConfigs[k];
        assert entryConfigs[..k + 1][..k] == entryConfigs[..k];
        assert answers[..k + 1][..k] == answers[..k];
        match answers[k] {
          case Failed(reason) =>
            if !ignoreDnsError {
              RaisedPrefix(entryConfigs, answers, ignoreDnsError, k + 1);
              return Raised(reason);
            }
          case Resolved(aiList) =>
            ghost var start := serviceList;
            for i := 0 to |aiList|
              invariant serviceList == start + EntryServices(conf, aiList[..i])
            {
              var name := ServiceName(i, conf.host);
              serviceList := serviceList + [Service(Dns, aiList[i].address, aiList[i].port, name,
                                                    conf.weight, false, conf.username, conf.password,
                                                    conf.sharedKey)];
            }
            assert aiList[..|aiList|] == aiList;
        }
        k := k + 1;
      }
      assert entryConfigs[..k] == entryConfigs && answers[..k] == answers;
      r := Built(serviceList);
    }
  }
}
