/** The network-probe feature extractor. Each probe performs external calls
    (name resolution, a TCP connect, DNS record lookups, an HTTP fetch, a
    WHOIS query); here every such call is a field of `Environment` that either
    returns a value or raises. A probe fills its own group of keys with
    measurements. The connectivity, HTTP and WHOIS probes overwrite their whole
    group with sentinel values when one of their calls raises; the DNS probe
    does so only when no resolver can be built, and otherwise catches each
    record lookup on its own, clearing just that lookup's flag. */
module NetworkProbes {
  import opened Wrappers
  import opened Text
  import opened Urls

  /** A feature dictionary; integer-valued features are stored exactly as reals. */
  type Features = map<string, real>

  const DnsResolutionTimeKey: string := "dns_resolution_time"
  const IsPrivateIpKey: string := "is_private_ip"
  const TcpConnectTimeKey: string := "tcp_connect_time"
  const HasMxRecordKey: string := "has_mx_record"
  const HasTxtRecordKey: string := "has_txt_record"
  const HttpResponseTimeKey: string := "http_response_time"
  const HttpStatusCodeKey: string := "http_status_code"
  const ContentLengthKey: string := "content_length"
  const UsesHttpsKey: string := "uses_https"
  const DomainAgeDaysKey: string := "domain_age_days"
  const IsNewDomainKey: string := "is_new_domain"
  const HasRegistrarKey: string := "has_registrar"

  /** The key group each probe owns. */
  const BasicKeys: set<string> := {DnsResolutionTimeKey, IsPrivateIpKey, TcpConnectTimeKey}
  const DnsKeys: set<string> := {HasMxRecordKey, HasTxtRecordKey}
  const HttpKeys: set<string> := {HttpResponseTimeKey, HttpStatusCodeKey, ContentLengthKey, UsesHttpsKey}
  const WhoisKeys: set<string> := {DomainAgeDaysKey, IsNewDomainKey, HasRegistrarKey}

  /** Seconds in a day, for the whole-day part of a time difference. */
  const SecondsPerDay: int := 86400

  /** A domain younger than this many days is new. */
  const NewDomainDays: int := 30

  datatype Resolution = Resolution(address: string, seconds: real)
  datatype RecordType = MX | TXT
  datatype HttpResponse = HttpResponse(seconds: real, statusCode: int, contentLength: nat)

  /** A creation date as the WHOIS client reports it: a date-time (seconds since the epoch)
      or a value, such as unparsed text, that cannot be subtracted from the current time. */
  datatype DateValue = DateTime(epochSeconds: int) | NotADate
  datatype CreationDate = NoCreationDate | SingleDate(date: DateValue) | DateList(dates: seq<DateValue>)
  datatype WhoisInfo = WhoisInfo(creationDate: CreationDate, registrar: Option<string>)

  /** The outside world as the probes see it: each field stands for one external call
      (its arguments include the timeout the extractor passes on), and `now` for the clock. */
  datatype Environment = Environment(
    resolveHost: string -> Attempt<Resolution>,
    connectTcp: (string, int, int) -> Attempt<real>,
    resolverConfigured: bool,
    lookupRecord: (string, RecordType, int) -> bool,
    httpGet: (string, int) -> Attempt<HttpResponse>,
    whoisLookup: string -> Attempt<WhoisInfo>,
    now: int)

  function Flag(b: bool): (r: real)
    ensures r == 0.0 || r == 1.0
    ensures r == 1.0 <==> b
  {
    if b then 1.0 else 0.0
  }

  /** The address prefixes the connectivity probe treats as private, in the order it tests them. */
  const PrivatePrefixes: seq<string> := ["10.", "172.16.", "192.168.", "169.254."]

  /** The private-address test: the address text begins with one of the listed prefixes. */
  function IsPrivateIp(address: string): (b: bool)
    ensures b <==> exists i :: 0 <= i < |PrivatePrefixes| && StartsWith(address, PrivatePrefixes[i])
  {
    assert PrivatePrefixes[0] == "10." && PrivatePrefixes[1] == "172.16.";
    assert PrivatePrefixes[2] == "192.168." && PrivatePrefixes[3] == "169.254.";
    StartsWith(address, "10.") || StartsWith(address, "172.16.")
    || StartsWith(address, "192.168.") || StartsWith(address, "169.254.")
  }

  /** The values the connectivity probe records when one of its calls raises: the default
      value of each of its keys. */
  function BasicSentinels(): (f: Features)
    ensures f.Keys == BasicKeys
    ensures forall k :: k in f ==> f[k] == DefaultFeatures()[k]
  {
    map[DnsResolutionTimeKey := 5.0, IsPrivateIpKey := 0.0, TcpConnectTimeKey := 5.0]
  }

  /** The values the DNS probe records when no resolver can be built. */
  function DnsSentinels(): (f: Features)
    ensures f.Keys == DnsKeys
    ensures forall k :: k in f ==> f[k] == DefaultFeatures()[k]
  {
    map[HasMxRecordKey := 0.0, HasTxtRecordKey := 0.0]
  }

  /** The values the HTTP probe records when the fetch raises. */
  function HttpSentinels(): (f: Features)
    ensures f.Keys == HttpKeys
    ensures forall k :: k in f ==> f[k] == DefaultFeatures()[k]
  {
    map[HttpResponseTimeKey := 5.0, HttpStatusCodeKey := 0.0, ContentLengthKey := 0.0, UsesHttpsKey := 0.0]
  }

  /** The values the WHOIS probe records when the query or the date arithmetic raises. */
  function WhoisSentinels(): (f: Features)
    ensures f.Keys == WhoisKeys
    ensures forall k :: k in f ==> f[k] == DefaultFeatures()[k]
  {
    map[DomainAgeDaysKey := 0.0, IsNewDomainKey := 1.0, HasRegistrarKey := 0.0]
  }

  /** `_get_default_features`: the value of every key when the whole extraction fails. */
  function DefaultFeatures(): (f: Features)
    ensures f.Keys == BasicKeys + DnsKeys + HttpKeys + WhoisKeys
  {
    map[
      DnsResolutionTimeKey := 5.0, IsPrivateIpKey := 0.0, TcpConnectTimeKey := 5.0,
      HasMxRecordKey := 0.0, HasTxtRecordKey := 0.0,
      HttpResponseTimeKey := 5.0, HttpStatusCodeKey := 0.0, ContentLengthKey := 0.0, UsesHttpsKey := 0.0,
      DomainAgeDaysKey := 0.0, IsNewDomainKey := 1.0, HasRegistrarKey := 0.0]
  }

  /** Connectivity probe: all three values measured, or all three sentinels. */
  function BasicProbe(domain: string, env: Environment, timeout: int): (f: Features)
    ensures f.Keys == BasicKeys
  {
    match env.resolveHost(domain)
    case Raised => BasicSentinels()
    case Returned(res) =>
      match env.connectTcp(domain, 80, timeout)
      case Raised => BasicSentinels()
      case Returned(tcpSeconds) =>
        map[DnsResolutionTimeKey := res.seconds, IsPrivateIpKey := Flag(IsPrivateIp(res.address)),
            TcpConnectTimeKey := tcpSeconds]
  }

  /** DNS-record probe: one flag per record type, or both 0 when no resolver can be built. */
  function DnsProbe(domain: string, env: Environment, timeout: int): (f: Features)
    ensures f.Keys == DnsKeys
  {
    if !env.resolverConfigured then DnsSentinels()
    else map[HasMxRecordKey := Flag(env.lookupRecord(domain, MX, timeout)),
             HasTxtRecordKey := Flag(env.lookupRecord(domain, TXT, timeout))]
  }

  /** HTTP probe: the response's timing, status and size, or the four sentinels. */
  function HttpProbe(url: string, env: Environment, timeout: int): (f: Features)
    ensures f.Keys == HttpKeys
  {
    match env.httpGet(url, timeout)
    case Raised => HttpSentinels()
    case Returned(resp) =>
      map[HttpResponseTimeKey := resp.seconds, HttpStatusCodeKey := resp.statusCode as real,
          ContentLengthKey := resp.contentLength as real, UsesHttpsKey := Flag(StartsWith(url, HttpsPrefix))]
  }

  /** Whether the reported creation date is truthy: present, and not an empty list. */
  predicate HasCreationDate(c: CreationDate) {
    !c.NoCreationDate? && !(c.DateList? && c.dates == [])
  }

  /** The creation date the probe uses: the only one, or the first of a list. */
  function ChosenCreationDate(c: CreationDate): (d: DateValue)
    requires HasCreationDate(c)
    ensures c.DateList? ==> d == c.dates[0]
    ensures c.SingleDate? ==> d == c.date
  {
    if c.DateList? then c.dates[0] else c.date
  }

  /** `(now - created).days`: whole days, rounded towards minus infinity. */
  function AgeDays(now: int, created: int): (days: int)
    ensures days * SecondsPerDay <= now - created < (days + 1) * SecondsPerDay
  {
    (now - created) / SecondsPerDay
  }

  predicate RegistrarPresent(registrar: Option<string>) {
    registrar.Some? && registrar.value != ""
  }

  /** WHOIS probe: the domain's age and registrar, or the three sentinels. */
  function WhoisProbe(domain: string, env: Environment): (f: Features)
    ensures f.Keys == WhoisKeys
  {
    match env.whoisLookup(domain)
    case Raised => WhoisSentinels()
    case Returned(info) =>
      if !HasCreationDate(info.creationDate) then
        map[DomainAgeDaysKey := 0.0, IsNewDomainKey := 1.0, HasRegistrarKey := Flag(RegistrarPresent(info.registrar))]
      else
        match ChosenCreationDate(info.creationDate)
        case NotADate => WhoisSentinels()
        case DateTime(created) =>
          var age := AgeDays(env.now, created);
          map[DomainAgeDaysKey := age as real, IsNewDomainKey := Flag(age < NewDomainDays),
              HasRegistrarKey := Flag(RegistrarPresent(info.registrar))]
  }

  /** `extract_network_features`: the four probes' groups merged, or the defaults when the
      URL cannot be split. */
  function NetworkFeatures(url: string, env: Environment, timeout: int): (f: Features)
    ensures f.Keys == DefaultFeatures().Keys
  {
    var u := WithScheme(url);
    match Netloc(u)
    case None => DefaultFeatures()
    case Some(domain) =>
      BasicProbe(domain, env, timeout) + DnsProbe(domain, env, timeout)
      + HttpProbe(u, env, timeout) + WhoisProbe(domain, env)
  }

  /** The four key groups are pairwise disjoint (their sizes are in `KeyGroupSizes`, their
      union is the key set of `DefaultFeatures`). */
  lemma KeyGroupsPartitionDefaults()
    ensures BasicKeys !! DnsKeys && BasicKeys !! HttpKeys && BasicKeys !! WhoisKeys
    ensures DnsKeys !! HttpKeys && DnsKeys !! WhoisKeys && HttpKeys !! WhoisKeys
  {
  }

  /** The groups hold 3, 2, 4 and 3 keys, twelve in all. */
  lemma KeyGroupSizes()
    ensures |BasicKeys| == 3 && |DnsKeys| == 2 && |HttpKeys| == 4 && |WhoisKeys| == 3
    ensures |DefaultFeatures()| == 12
  {
    KeyGroupsPartitionDefaults();
    assert |BasicKeys| == 3;
    assert |DnsKeys| == 2;
    assert |HttpKeys| == 4;
    assert |WhoisKeys| == 3;
    assert |DefaultFeatures().Keys| == |BasicKeys| + |DnsKeys| + |HttpKeys| + |WhoisKeys|;
  }

  /** Each probe's sentinels are the defaults of its own group. */
  lemma SentinelsAreDefaults()
    ensures DefaultFeatures() == BasicSentinels() + DnsSentinels() + HttpSentinels() + WhoisSentinels()
  {
    KeyGroupsPartitionDefaults();
    var merged := BasicSentinels() + DnsSentinels() + HttpSentinels() + WhoisSentinels();
    assert merged.Keys == DefaultFeatures().Keys;
    forall k | k in merged ensures merged[k] == DefaultFeatures()[k] {
      if k in BasicKeys {
        assert merged[k] == BasicSentinels()[k];
      } else if k in DnsKeys {
        assert merged[k] == DnsSentinels()[k];
      } else if k in HttpKeys {
        assert merged[k] == HttpSentinels()[k];
      }
    }
  }

  /** Either the URL cannot be split and every key has its default, or every group of the
      merged result is exactly what its own probe produced: merging never lets one probe
      overwrite another's keys. */
  lemma MergeKeepsEachProbeGroup(url: string, env: Environment, timeout: int)
    ensures var u := WithScheme(url);
      var f := NetworkFeatures(url, env, timeout);
      match Netloc(u)
      case None => f == DefaultFeatures()
      case Some(domain) =>
        && (forall k :: k in BasicKeys ==> f[k] == BasicProbe(domain, env, timeout)[k])
        && (forall k :: k in DnsKeys ==> f[k] == DnsProbe(domain, env, timeout)[k])
        && (forall k :: k in HttpKeys ==> f[k] == HttpProbe(u, env, timeout)[k])
        && (forall k :: k in WhoisKeys ==> f[k] == WhoisProbe(domain, env)[k])
  {
    var u := WithScheme(url);
    match Netloc(u)
    case None =>
    case Some(domain) =>
      GroupsSurviveMerge(BasicProbe(domain, env, timeout), DnsProbe(domain, env, timeout),
                         HttpProbe(u, env, timeout), WhoisProbe(domain, env));
  }

  /** Updating an empty dictionary with `m` gives `m`. */
  lemma UpdateOfEmpty(m: Features)
    ensures map[] + m == m
  {
  }

  /** Merging four maps over the four disjoint key groups keeps each map's values on its group. */
  lemma GroupsSurviveMerge(b: Features, d: Features, h: Features, w: Features)
    requires b.Keys == BasicKeys && d.Keys == DnsKeys && h.Keys == HttpKeys && w.Keys == WhoisKeys
    ensures var f := b + d + h + w;
      && (forall k :: k in BasicKeys ==> f[k] == b[k])
      && (forall k :: k in DnsKeys ==> f[k] == d[k])
      && (forall k :: k in HttpKeys ==> f[k] == h[k])
      && (forall k :: k in WhoisKeys ==> f[k] == w[k])
  {
    KeyGroupsPartitionDefaults();
  }

  /** The connectivity probe is all-or-nothing: if either call raises, even after the name
      resolved, all three values are sentinels; the private flag is set only when both calls
      returned and the address has a private prefix. */
  lemma BasicProbeAllOrNothing(domain: string, env: Environment, timeout: int)
    ensures var f := BasicProbe(domain, env, timeout);
      (env.resolveHost(domain).Raised? || env.connectTcp(domain, 80, timeout).Raised? ==> f == BasicSentinels())
      && (f[IsPrivateIpKey] == 0.0 || f[IsPrivateIpKey] == 1.0)
      && (f[IsPrivateIpKey] == 1.0 <==>
            env.resolveHost(domain).Returned? && env.connectTcp(domain, 80, timeout).Returned?
            && IsPrivateIp(env.resolveHost(domain).value.address))
  {
  }

  /** The prefix test as written: `172.16.` is the only prefix taken from the 172.16.0.0/12 block. */
  lemma PrivateIpExamples()
    ensures IsPrivateIp("10.0.0.1") && IsPrivateIp("192.168.1.20") && IsPrivateIp("169.254.3.4")
    ensures IsPrivateIp("172.16.0.9") && !IsPrivateIp("172.20.0.1") && !IsPrivateIp("100.64.0.1")
  {
    assert "10.0.0.1"[..3] == "10.";
    assert "192.168.1.20"[..8] == "192.168.";
    assert "169.254.3.4"[..8] == "169.254.";
    assert "172.16.0.9"[..7] == "172.16.";
    assert "172.20.0.1"[1] != "10."[1] && "172.20.0.1"[1] != "192.168."[1] && "172.20.0.1"[1] != "169.254."[1];
    assert "172.20.0.1"[4] != "172.16."[4];
    assert "100.64.0.1"[2] != "10."[2] && "100.64.0.1"[1] != "192.168."[1] && "100.64.0.1"[1] != "169.254."[1];
    assert "100.64.0.1"[1] != "172.16."[1];
  }

  /** The two record flags are 0/1 and each depends only on its own lookup. */
  lemma DnsFlagsIndependent(domain: string, env: Environment, timeout: int)
    ensures var f := DnsProbe(domain, env, timeout);
      && (f[HasMxRecordKey] == 1.0 <==> env.resolverConfigured && env.lookupRecord(domain, MX, timeout))
      && (f[HasTxtRecordKey] == 1.0 <==> env.resolverConfigured && env.lookupRecord(domain, TXT, timeout))
      && (f[HasMxRecordKey] == 0.0 || f[HasMxRecordKey] == 1.0)
      && (f[HasTxtRecordKey] == 0.0 || f[HasTxtRecordKey] == 1.0)
  {
  }

  /** `uses_https` is 1 only for a fetch that returned, of a URL beginning with `https://`;
      a fetch that raises gives exactly the four sentinels. */
  lemma HttpsOnlyWhenFetched(url: string, env: Environment, timeout: int)
    ensures var f := HttpProbe(url, env, timeout);
      && (f[UsesHttpsKey] == 1.0 <==> env.httpGet(url, timeout).Returned? && StartsWith(url, HttpsPrefix))
      && (env.httpGet(url, timeout).Raised? ==> f == HttpSentinels())
  {
  }

  /** On every path (measured, no creation date, lookup raised) the new-domain flag is 1 exactly
      when the recorded age is under 30 days; the registrar flag is 1 exactly when the lookup
      returned a non-empty registrar and the creation date did not make the probe raise. */
  lemma NewDomainIffYoung(domain: string, env: Environment)
    ensures var f := WhoisProbe(domain, env);
      && (f[IsNewDomainKey] == 0.0 || f[IsNewDomainKey] == 1.0)
      && (f[HasRegistrarKey] == 0.0 || f[HasRegistrarKey] == 1.0)
      && (f[IsNewDomainKey] == 1.0 <==> f[DomainAgeDaysKey] < 30.0)
      && (f[HasRegistrarKey] == 1.0 <==>
            env.whoisLookup(domain).Returned?
            && RegistrarPresent(env.whoisLookup(domain).value.registrar)
            && !(HasCreationDate(env.whoisLookup(domain).value.creationDate)
                 && ChosenCreationDate(env.whoisLookup(domain).value.creationDate).NotADate?))
  {
    match env.whoisLookup(domain)
    case Raised =>
    case Returned(info) =>
      if HasCreationDate(info.creationDate) && ChosenCreationDate(info.creationDate).DateTime? {
        var age := AgeDays(env.now, ChosenCreationDate(info.creationDate).epochSeconds);
        assert (age as real < 30.0) <==> age < NewDomainDays;
      }
  }

  /** A creation date is truthy as Python reads it: absent and an empty list are false,
      a single date-time or text value and a non-empty list are true. */
  lemma CreationDateTruthiness()
    ensures !HasCreationDate(NoCreationDate) && !HasCreationDate(DateList([]))
    ensures forall d :: HasCreationDate(SingleDate(d))
    ensures forall ds: seq<DateValue> :: ds != [] ==> HasCreationDate(DateList(ds))
  {
  }

  /** A registrar is truthy when it is present and not the empty string. */
  lemma RegistrarTruthiness()
    ensures !RegistrarPresent(None) && !RegistrarPresent(Some(""))
    ensures forall r: string :: r != "" ==> RegistrarPresent(Some(r))
  {
  }

  /** The WHOIS probe is all-or-nothing: when the query raises, or when the chosen creation
      date cannot be subtracted from the current time, all three values are the sentinels. */
  lemma WhoisFailureGivesSentinels(domain: string, env: Environment)
    ensures env.whoisLookup(domain).Raised? ==> WhoisProbe(domain, env) == WhoisSentinels()
    ensures var lookup := env.whoisLookup(domain);
      lookup.Returned? && HasCreationDate(lookup.value.creationDate)
      && ChosenCreationDate(lookup.value.creationDate).NotADate?
      ==> WhoisProbe(domain, env) == WhoisSentinels()
  {
  }

  /** A list of creation dates is read by its first element, not its earliest: with
      dates 100 days and 0 days after the epoch and the clock at day 110, the age is 10 days. */
  lemma FirstListedDateIsUsed(domain: string)
    ensures var env := Environment(
        _ => Raised, (_, _, _) => Raised, false, (_, _, _) => false, (_, _) => Raised,
        _ => Returned(WhoisInfo(DateList([DateTime(100 * SecondsPerDay), DateTime(0)]), None)),
        110 * SecondsPerDay);
      WhoisProbe(domain, env)[DomainAgeDaysKey] == 10.0
      && WhoisProbe(domain, env)[IsNewDomainKey] == 1.0
  {
  }

  /** Whatever the probes report, the merged map holds 0/1 values for its six flags, and its
      new-domain flag agrees with its domain age. */
  lemma ExtractedFlagsConsistent(url: string, env: Environment, timeout: int)
    ensures var f := NetworkFeatures(url, env, timeout);
      && (f[IsPrivateIpKey] == 0.0 || f[IsPrivateIpKey] == 1.0)
      && (f[HasMxRecordKey] == 0.0 || f[HasMxRecordKey] == 1.0)
      && (f[HasTxtRecordKey] == 0.0 || f[HasTxtRecordKey] == 1.0)
      && (f[UsesHttpsKey] == 0.0 || f[UsesHttpsKey] == 1.0)
      && (f[IsNewDomainKey] == 0.0 || f[IsNewDomainKey] == 1.0)
      && (f[HasRegistrarKey] == 0.0 || f[HasRegistrarKey] == 1.0)
      && (f[IsNewDomainKey] == 1.0 <==> f[DomainAgeDaysKey] < 30.0)
  {
    var u := WithScheme(url);
    match Netloc(u)
    case None => DefaultFlagValues();
    case Some(domain) => MergedFlagsBinary(domain, u, env, timeout);
  }

  lemma DefaultFlagValues()
    ensures var f := DefaultFeatures();
      && f[IsPrivateIpKey] == 0.0 && f[HasMxRecordKey] == 0.0 && f[HasTxtRecordKey] == 0.0
      && f[UsesHttpsKey] == 0.0 && f[IsNewDomainKey] == 1.0 && f[HasRegistrarKey] == 0.0
      && f[DomainAgeDaysKey] == 0.0
  {
  }

  lemma MergedFlagsBinary(domain: string, u: string, env: Environment, timeout: int)
    ensures var f := BasicProbe(domain, env, timeout) + DnsProbe(domain, env, timeout)
                     + HttpProbe(u, env, timeout) + WhoisProbe(domain, env);
      && (f[IsPrivateIpKey] == 0.0 || f[IsPrivateIpKey] == 1.0)
      && (f[HasMxRecordKey] == 0.0 || f[HasMxRecordKey] == 1.0)
      && (f[HasTxtRecordKey] == 0.0 || f[HasTxtRecordKey] == 1.0)
      && (f[UsesHttpsKey] == 0.0 || f[UsesHttpsKey] == 1.0)
      && (f[IsNewDomainKey] == 0.0 || f[IsNewDomainKey] == 1.0)
      && (f[HasRegistrarKey] == 0.0 || f[HasRegistrarKey] == 1.0)
      && (f[IsNewDomainKey] == 1.0 <==> f[DomainAgeDaysKey] < 30.0)
  {
    var b, d, h, w := BasicProbe(domain, env, timeout), DnsProbe(domain, env, timeout),
                      HttpProbe(u, env, timeout), WhoisProbe(domain, env);
    var f := b + d + h + w;
    KeyGroupsPartitionDefaults();
    BasicProbeAllOrNothing(domain, env, timeout);
    DnsFlagsIndependent(domain, env, timeout);
    HttpsOnlyWhenFetched(u, env, timeout);
    NewDomainIffYoung(domain, env);
    assert f[IsPrivateIpKey] == b[IsPrivateIpKey];
    assert f[HasMxRecordKey] == d[HasMxRecordKey] && f[HasTxtRecordKey] == d[HasTxtRecordKey];
    assert f[UsesHttpsKey] == h[UsesHttpsKey];
    assert f[IsNewDomainKey] == w[IsNewDomainKey] && f[DomainAgeDaysKey] == w[DomainAgeDaysKey];
    assert f[HasRegistrarKey] == w[HasRegistrarKey];
  }

  class SimpleNetworkFeatureExtractor {
    /** Seconds each external call may take. */
    var timeout: int

    constructor ()
      ensures timeout == 5
    {
      timeout := 5;
    }

    method ExtractNetworkFeatures(url: string, env: Environment) returns (features: Features)
      ensures features == NetworkFeatures(url, env, timeout)
    {
      features := map[];
      var u := WithScheme(url);
      var parsed := Netloc(u);
      if parsed.None? {
        // the URL splitter raised before any probe ran
        UpdateOfEmpty(DefaultFeatures());
        features := features + DefaultFeatures();
        assert Netloc(WithScheme(url)).None?;
      } else {
        var domain := parsed.value;
        var basic := GetBasicNetworkFeatures(domain, env);
        UpdateOfEmpty(basic);
        features := features + basic;
        var dns := GetDnsFeatures(domain, env);
        features := features + dns;
        var http := GetHttpFeatures(u, env);
        features := features + http;
        var whois := GetWhoisFeatures(domain, env);
        features := features + whois;
        assert features == NetworkFeatures(url, env, timeout) by {
          assert Netloc(WithScheme(url)) == Some(domain);
        }
      }
    }

    method GetBasicNetworkFeatures(domain: string, env: Environment) returns (features: Features)
      ensures features == BasicProbe(domain, env, timeout)
    {
      features := map[];
      var raised := false;
      var resolved := env.resolveHost(domain);
      if resolved.Raised? {
        raised := true;
      } else {
        features := features[DnsResolutionTimeKey := resolved.value.seconds];
        if IsPrivateIp(resolved.value.address) {
          features := features[IsPrivateIpKey := 1.0];
        } else {
          features := features[IsPrivateIpKey := 0.0];
        }
        var connected := env.connectTcp(domain, 80, timeout);
        if connected.Raised? {
          raised := true;
        } else {
          features := features[TcpConnectTimeKey := connected.value];
        }
      }
      if raised {
        features := features + BasicSentinels();
      }
    }

    method GetDnsFeatures(domain: string, env: Environment) returns (features: Features)
      ensures features == DnsProbe(domain, env, timeout)
    {
      features := map[];
      if !env.resolverConfigured {
        features := features + DnsSentinels();
      } else {
        if env.lookupRecord(domain, MX, timeout) {
          features := features[HasMxRecordKey := 1.0];
        } else {
          features := features[HasMxRecordKey := 0.0];
        }
        if env.lookupRecord(domain, TXT, timeout) {
          features := features[HasTxtRecordKey := 1.0];
        } else {
          features := features[HasTxtRecordKey := 0.0];
        }
      }
    }

    method GetHttpFeatures(url: string, env: Environment) returns (features: Features)
      ensures features == HttpProbe(url, env, timeout)
    {
      features := map[];
      var response := env.httpGet(url, timeout);
      if response.Raised? {
        features := features + HttpSentinels();
      } else {
        features := features[HttpResponseTimeKey := response.value.seconds];
        features := features[HttpStatusCodeKey := response.value.statusCode as real];
        features := features[ContentLengthKey := response.value.contentLength as real];
        if StartsWith(url, HttpsPrefix) {
          features := features[UsesHttpsKey := 1.0];
        } else {
          features := features[UsesHttpsKey := 0.0];
        }
      }
    }

    method GetWhoisFeatures(domain: string, env: Environment) returns (features: Features)
      ensures features == WhoisProbe(domain, env)
    {
      features := map[];
      var raised := false;
      var lookup := env.whoisLookup(domain);
      if lookup.Raised? {
        raised := true;
      } else {
        var info := lookup.value;
        if HasCreationDate(info.creationDate) {
          var created := ChosenCreationDate(info.creationDate);
          if created.NotADate? {
            // subtracting it from the current time raises
            raised := true;
          } else {
            var age := AgeDays(env.now, created.epochSeconds);
            features := features[DomainAgeDaysKey := age as real];
            if age < NewDomainDays {
              features := features[IsNewDomainKey := 1.0];
            } else {
              features := features[IsNewDomainKey := 0.0];
            }
          }
        } else {
          features := features[DomainAgeDaysKey := 0.0];
          features := features[IsNewDomainKey := 1.0];
        }
        if !raised {
          features := features[HasRegistrarKey := if RegistrarPresent(info.registrar) then 1.0 else 0.0];
        }
      }
      if raised {
        features := features + WhoisSentinels();
      }
    }
  }
}
