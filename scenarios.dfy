/**
 The behaviours the repository's tests exercise, stated through the class's
 methods with the resolver answers those tests arrange (localhost resolving
 to 127.0.0.1 and, without a family, also to ::1).
 */
module Scenarios {
  import opened Optional
  import opened AddressFamily
  import opened ServiceModel
  import opened ArrayDiff
  import opened Reconcile
  import Builder
  import opened SdDns

  /** An `<entry>` for localhost with the section's defaults. */
  function Localhost(port: int, family: Option<string>): RawEntry
  {
    RawEntry("localhost", port, family, None, "", "", 60)
  }

  /** The service the tests expect for `address:port` named `name`. */
  function Expected(address: string, port: int, name: string): Service
  {
    Service(Dns, address, port, name, 60, false, "", "", None)
  }

  /** The converted IPv4 entry for localhost on `port`. */
  function LocalEntry(port: int): Entry
  {
    Entry("localhost", port, Inet, None, "", "", 60)
  }

  /** Entry sections whose family is spelled "ipv4" convert to IPv4
      entries with their other fields unchanged. */
  lemma ParseIpv4(raw: seq<RawEntry>)
    requires forall k :: 0 <= k < |raw| ==> raw[k].addressFamily == Some("ipv4")
    ensures ParseEntries(raw).Ok?
    ensures forall k :: 0 <= k < |raw| ==> ParseEntries(raw).value[k] == ConvertEntry(raw[k], Inet)
  {
    assert Downcase("ipv4") == "ipv4";
  }

  /** One more localhost entry answered by one address adds the service
      "0-localhost" for that address at the end of the list; its port is the
      answer's. */
  lemma BuildMore(entries: seq<Entry>, answers: seq<Resolution>, prev: seq<Service>,
                  entryPort: int, port: int, address: string, ignore: bool)
    requires |answers| == |entries|
    requires Builder.BuildServiceList(entries, answers, ignore) == Builder.Built(prev)
    ensures Builder.BuildServiceList(entries + [LocalEntry(entryPort)], answers + [Resolved([AddrInfo(port, address)])], ignore) ==
            Builder.Built(prev + [Expected(address, port, "0-localhost")])
  {
    FirstNames();
    assert (entries + [LocalEntry(entryPort)])[..|entries|] == entries;
    assert (answers + [Resolved([AddrInfo(port, address)])])[..|entries|] == answers;
  }

  /** The entry on `entryPort` answered by `address:port` alone. */
  lemma BuildOne(entryPort: int, port: int, address: string, ignore: bool)
    ensures Builder.BuildServiceList([LocalEntry(entryPort)], [Resolved([AddrInfo(port, address)])], ignore) ==
            Builder.Built([Expected(address, port, "0-localhost")])
  {
    BuildMore([], [], [], entryPort, port, address, ignore);
    assert [] + [LocalEntry(entryPort)] == [LocalEntry(entryPort)];
    assert [] + [Resolved([AddrInfo(port, address)])] == [Resolved([AddrInfo(port, address)])];
    assert [] + [Expected(address, port, "0-localhost")] == [Expected(address, port, "0-localhost")];
  }

  /** The builds of a single round. */
  lemma BuildsSingle(entries: seq<Entry>, answers: seq<Resolution>, ignore: bool)
    requires |answers| == |entries|
    ensures Builds(entries, [answers], ignore) == [Builder.BuildServiceList(entries, answers, ignore)]
  {
  }

  lemma FirstNames()
    ensures ServiceName(0, "localhost") == "0-localhost"
    ensures ServiceName(1, "localhost") == "1-localhost"
  {
    assert Decimal(0) == "0" && Decimal(1) == "1";
  }

  /** One IPv4 entry resolving to 127.0.0.1 gives one service named
      "0-localhost" with the default weight and no credentials. */
  method ConfigureOneEntry() returns (err: Option<ConfigureError>, services: seq<Service>)
    ensures err == None
    ensures services == [Expected("127.0.0.1", 80, "0-localhost")]
  {
    var sd := new DnsServiceDiscovery();
    var raw := [Localhost(80, Some("ipv4"))];
    ParseIpv4(raw);
    err := sd.Configure(false, None, raw, [Resolved([AddrInfo(80, "127.0.0.1")])]);
    assert sd.entryConfigs == [LocalEntry(80)];
    BuildMore([], [], [], 80, 80, "127.0.0.1", false);
    services := sd.services;
  }

  /** The credentials of the entry are copied into its service. */
  method ConfigureWithAuth() returns (services: seq<Service>)
    ensures services == [Service(Dns, "127.0.0.1", 80, "0-localhost", 60, false,
                                 "test_user", "test_pass", Some("test_key"))]
  {
    var sd := new DnsServiceDiscovery();
    FirstNames();
    var raw := RawEntry("localhost", 80, Some("ipv4"), Some("test_key"), "test_user", "test_pass", 60);
    assert Downcase("ipv4") == "ipv4";
    var err := sd.Configure(false, None, [raw], [Resolved([AddrInfo(80, "127.0.0.1")])]);
    services := sd.services;
  }

  /** Three entries for the same host on ports 80, 81 and 82 give three
      services, all named "0-localhost", that differ by port. */
  method ConfigureThreeEntries() returns (services: seq<Service>)
    ensures services == [Expected("127.0.0.1", 80, "0-localhost"),
                         Expected("127.0.0.1", 81, "0-localhost"),
                         Expected("127.0.0.1", 82, "0-localhost")]
  {
    var sd := new DnsServiceDiscovery();
    var raw := [Localhost(80, Some("ipv4")), Localhost(81, Some("ipv4")), Localhost(82, Some("ipv4"))];
    ParseIpv4(raw);
    var a80, a81, a82 := Resolved([AddrInfo(80, "127.0.0.1")]), Resolved([AddrInfo(81, "127.0.0.1")]),
                         Resolved([AddrInfo(82, "127.0.0.1")]);
    var err := sd.Configure(false, None, raw, [a80, a81, a82]);
    assert sd.entryConfigs == [LocalEntry(80)] + [LocalEntry(81)] + [LocalEntry(82)];
    var s80, s81 := Expected("127.0.0.1", 80, "0-localhost"), Expected("127.0.0.1", 81, "0-localhost");
    BuildMore([], [], [], 80, 80, "127.0.0.1", false);
    BuildMore([LocalEntry(80)], [a80], [s80], 81, 81, "127.0.0.1", false);
    BuildMore([LocalEntry(80)] + [LocalEntry(81)], [a80] + [a81], [s80] + [s81], 82, 82, "127.0.0.1", false);
    assert [a80] + [a81] + [a82] == [a80, a81, a82];
    services := sd.services;
  }

  /** Without an address family, both answers of the entry become services,
      numbered in the resolver's order. */
  method ConfigureUnspecifiedFamily() returns (services: seq<Service>)
    ensures services == [Expected("::1", 80, "0-localhost"), Expected("127.0.0.1", 80, "1-localhost")]
  {
    var sd := new DnsServiceDiscovery();
    FirstNames();
    var err := sd.Configure(false, None, [Localhost(80, None)],
                            [Resolved([AddrInfo(80, "::1"), AddrInfo(80, "127.0.0.1")])]);
    services := sd.services;
  }

  /** A configuration without any entry section is refused. */
  method ConfigureNoEntry() returns (err: Option<ConfigureError>)
    ensures err.Some? && err.value.InvalidConfig?
  {
    var sd := new DnsServiceDiscovery();
    err := sd.Configure(false, None, [], []);
  }

  /** A resolver failure that is not ignored fails `configure` and leaves no
      service. */
  method ConfigureResolverRaises() returns (err: Option<ConfigureError>, services: seq<Service>)
    ensures err == Some(ResolverFailed("Failed for test!"))
    ensures services == []
  {
    var sd := new DnsServiceDiscovery();
    assert Downcase("ipv4") == "ipv4";
    err := sd.Configure(false, None, [Localhost(80, Some("ipv4"))], [Failed("Failed for test!")]);
    services := sd.services;
  }

  /** With `ignore_dns_error`, the same failure is skipped: `configure`
      succeeds and there is no service. */
  method ConfigureResolverRaisesIgnored() returns (err: Option<ConfigureError>, services: seq<Service>)
    ensures err == None
    ensures services == []
  {
    var sd := new DnsServiceDiscovery();
    assert Downcase("ipv4") == "ipv4";
    err := sd.Configure(true, None, [Localhost(80, Some("ipv4"))], [Failed("Failed for test!")]);
    services := sd.services;
  }

  /** A single firing of the timer is one refresh. */
  lemma RunSingle(current: seq<Service>, built: Builder.BuildResult)
    ensures Run(current, [built]) == Refresh(current, built)
  {
  }

  /** A round that finds the same list keeps it and pushes nothing. */
  lemma RunUnchanged(current: seq<Service>, queued: seq<Event>)
    requires current != []
    ensures Run(current, [Builder.Built(current)]) == Cycle(current, [])
    ensures queued + Run(current, [Builder.Built(current)]).events == queued
  {
    RunSingle(current, Builder.Built(current));
    DiffSameMembers(current, current);
  }

  /** A round that replaces one service by another pushes the join of the
      new one, then the drain of the old one. */
  lemma RunMoved(before: Service, now: Service)
    requires before != now
    ensures Run([before], [Builder.Built([now])]).events == [ServiceIn(now), ServiceOut(before)]
  {
    RunSingle([before], Builder.Built([now]));
    assert Minus([now], [before]) == [now];
    assert Minus([before], [now]) == [before];
  }

  /** With an interval, neither the first firing of the timer nor the next
      one pushes anything when localhost keeps resolving to 127.0.0.1. */
  method SkipWhenUnchanged() returns (afterFirst: seq<Event>, afterSecond: seq<Event>)
    ensures afterFirst == [] && afterSecond == []
  {
    var sd := new DnsServiceDiscovery();
    var raw := [Localhost(80, Some("ipv4"))];
    ParseIpv4(raw);
    var answers := [Resolved([AddrInfo(80, "127.0.0.1")])];
    var err := sd.Configure(false, Some(10.0), raw, answers);
    assert sd.entryConfigs == [LocalEntry(80)];
    BuildOne(80, 80, "127.0.0.1", false);
    BuildsSingle(sd.entryConfigs, answers, false);
    ghost var current := sd.services;
    assert Builds(sd.entryConfigs, [answers], false) == [Builder.Built(current)];
    var queue := new EventQueue();
    sd.Start(queue, answers);
    RunUnchanged(current, []);
    sd.TimerFires([answers]);
    assert sd.services == current && queue.items == [];
    afterFirst := queue.items;
    sd.TimerFires([answers]);
    afterSecond := queue.items;
  }

  /** When localhost moves from 127.0.0.1:80 to 192.168.0.1:90, the timer's
      refresh pushes the join of the new service and then the drain of the
      old one. */
  method AddressChanged() returns (pushed: seq<Event>)
    ensures pushed == [ServiceIn(Expected("192.168.0.1", 90, "0-localhost")),
                       ServiceOut(Expected("127.0.0.1", 80, "0-localhost"))]
  {
    var sd := new DnsServiceDiscovery();
    var raw := [Localhost(80, Some("ipv4"))];
    ParseIpv4(raw);
    var err := sd.Configure(false, Some(10.0), raw, [Resolved([AddrInfo(80, "127.0.0.1")])]);
    assert sd.entryConfigs == [LocalEntry(80)];
    BuildOne(80, 80, "127.0.0.1", false);
    var moved := [Resolved([AddrInfo(90, "192.168.0.1")])];
    BuildOne(80, 90, "192.168.0.1", false);
    BuildsSingle(sd.entryConfigs, moved, false);
    var queue := new EventQueue();
    sd.Start(queue, moved);
    RunMoved(Expected("127.0.0.1", 80, "0-localhost"), Expected("192.168.0.1", 90, "0-localhost"));
    sd.TimerFires([moved]);
    pushed := queue.items;
  }
}
