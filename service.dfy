/**
 The values the discovery source works with: configured entries, what the
 resolver returns for one entry, the `Service` records built from it, and the
 join/drain events pushed to the consumer's queue.
 */
module ServiceModel {
  import opened Optional
  import opened AddressFamily

  /** The origin tag of a service; this source only produces `:dns`. */
  datatype Kind = Dns

  /** One discovered endpoint. Equality is structural over all nine fields,
      which is what Ruby's `Array#-` and `==` use on these records. */
  datatype Service = Service(
    kind: Kind,
    host: string,
    port: int,
    name: string,
    weight: int,
    shared: bool,
    username: string,
    password: string,
    sharedKey: Option<string>)

  /** A membership change: `service_in_msg` / `service_out_msg`. */
  datatype Event = ServiceIn(service: Service) | ServiceOut(service: Service)

  /** One `<entry>` section after configuration parsing. */
  datatype Entry = Entry(
    host: string,
    port: int,
    family: Family,
    sharedKey: Option<string>,
    username: string,
    password: string,
    weight: int)

  /** One `<entry>` section before the address family is converted. */
  datatype RawEntry = RawEntry(
    host: string,
    port: int,
    addressFamily: Option<string>,
    sharedKey: Option<string>,
    username: string,
    password: string,
    weight: int)

  /** The fields of one resolver answer that the source reads: `ai[1]` (the
      port) and `ai[3]` (the numeric address). */
  datatype AddrInfo = AddrInfo(port: int, address: string)

  /** What one resolver call for one entry gives: a list of answers, or a
      raised error. */
  datatype Resolution = Resolved(addrs: seq<AddrInfo>) | Failed(reason: string)

  /** The decimal digit for 0 <= d < 10. */
  function Digit(d: nat): char
    requires d < 10
  {
    "0123456789"[d]
  }

  /** Ruby's `Integer#to_s` for a non-negative integer, as used by string
      interpolation. */
  function Decimal(n: nat): (r: string)
    ensures |r| >= 1
    ensures forall i :: 0 <= i < |r| ==> '0' <= r[i] <= '9'
    decreases n
  {
    if n < 10 then [Digit(n)] else Decimal(n / 10) + [Digit(n % 10)]
  }

  lemma DigitInjective(a: nat, b: nat)
    requires a < 10 && b < 10 && Digit(a) == Digit(b)
    ensures a == b
  {
  }

  /** Distinct indices are printed differently. */
  lemma {:induction false} DecimalInjective(n: nat, m: nat)
    requires Decimal(n) == Decimal(m)
    ensures n == m
    decreases n
  {
    var dn, dm := Decimal(n), Decimal(m);
    if n < 10 && m < 10 {
      DigitInjective(n, m);
    } else if n >= 10 && m >= 10 {
      assert dn[..|dn| - 1] == Decimal(n / 10);
      assert dm[..|dm| - 1] == Decimal(m / 10);
      DecimalInjective(n / 10, m / 10);
      DigitInjective(n % 10, m % 10);
    }
  }

  /** The number a string of decimal digits spells, most significant digit
      first. */
  function DigitsValue(s: string): int
    decreases |s|
  {
    if s == [] then 0
    else DigitsValue(s[..|s| - 1]) * 10 + (s[|s| - 1] as int - '0' as int)
  }

  lemma DigitValue(d: nat)
    requires d < 10
    ensures Digit(d) as int - '0' as int == d
  {
  }

  /** The printed index spells the index in base 10, with no leading zero
      except for 0 itself: it is the canonical decimal form. */
  lemma {:induction false} DecimalValue(n: nat)
    ensures DigitsValue(Decimal(n)) == n
    ensures n == 0 || Decimal(n)[0] != '0'
    decreases n
  {
    if n < 10 {
      DigitValue(n);
      assert Decimal(n)[..0] == [];
    } else {
      var d := Decimal(n / 10);
      DecimalValue(n / 10);
      DigitValue(n % 10);
      assert Decimal(n)[..|Decimal(n)| - 1] == d;
      assert Decimal(n)[0] == d[0];
    }
  }

  /** The display name `"#{i}-#{host}"` of the i-th address of an entry. */
  function ServiceName(i: nat, host: string): string
  {
    Decimal(i) + "-" + host
  }

  /** Two names for the same host differ whenever their indices differ. */
  lemma ServiceNameInjective(i: nat, j: nat, host: string)
    requires ServiceName(i, host) == ServiceName(j, host)
    ensures i == j
  {
    var a, b := Decimal(i), Decimal(j);
    var ni, nj := ServiceName(i, host), ServiceName(j, host);
    assert |ni| == |a| + 1 + |host| && |nj| == |b| + 1 + |host|;
    assert |a| == |b|;
    assert ni[..|a|] == a && nj[..|b|] == b;
    DecimalInjective(i, j);
  }

  /** The service built for the i-th answer `ai` of entry `e`. */
  function ServiceFor(e: Entry, ai: AddrInfo, i: nat): Service
  {
    Service(Dns, ai.address, ai.port, ServiceName(i, e.host), e.weight, false,
            e.username, e.password, e.sharedKey)
  }

  /** The services one successfully resolved entry contributes, in the
      resolver's order (`ai_list.each_with_index`). */
  function EntryServices(e: Entry, addrs: seq<AddrInfo>): seq<Service>
  {
    seq(|addrs|, i requires 0 <= i < |addrs| => ServiceFor(e, addrs[i], i))
  }

  /** What the i-th service of an entry is made of: the resolved address and
      port (not the configured port), the derived name, and the entry's
      credentials and weight; the kind is `:dns` and `shared` is false. */
  lemma EntryServiceFields(e: Entry, addrs: seq<AddrInfo>, i: nat)
    requires i < |addrs|
    ensures |EntryServices(e, addrs)| == |addrs|
    ensures var s := EntryServices(e, addrs)[i];
      s.kind == Dns && s.host == addrs[i].address && s.port == addrs[i].port &&
      s.name == ServiceName(i, e.host) && s.weight == e.weight && !s.shared &&
      s.username == e.username && s.password == e.password && s.sharedKey == e.sharedKey
  {
  }

  /** Within one entry the services are pairwise distinct, because their
      names carry distinct indices. */
  lemma EntryServicesDistinct(e: Entry, addrs: seq<AddrInfo>, i: nat, j: nat)
    requires i < |addrs| && j < |addrs| && i != j
    ensures EntryServices(e, addrs)[i] != EntryServices(e, addrs)[j]
  {
    if EntryServices(e, addrs)[i] == EntryServices(e, addrs)[j] {
      ServiceNameInjective(i, j, e.host);
    }
  }
}
