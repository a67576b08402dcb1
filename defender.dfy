/**
 * The in-memory defender: per-address event history with a sliding-window
 * score, a ban table, and the two capacity-bounded eviction passes.
 *
 * Times are integers in nanoseconds (as Go's UnixNano); configured durations
 * are minutes. Every operation that depends on the clock takes `now`.
 */
module Defender {
  import opened Wrappers
  import opened DefenderConfig
  import opened HostLists
  import opened Eviction
  import Encoding

  const Minute: int := 60_000_000_000

  /** One recorded event: when it happened and the weight it carried. */
  datatype Event = Event(dateTime: int, score: int)

  /** A tracked host: the score stored at its last event and its events, oldest first. */
  datatype HostScore = HostScore(totalScore: int, events: seq<Event>)

  /** What the defender reports about one address; banTime is None when not banned. */
  datatype DefenderEntry = DefenderEntry(ip: string, score: int, banTime: Option<int>)

  datatype LookupError = NotFound

  /** The entry's identifier: the address bytes in lower-case Base16. */
  function EntryId(e: DefenderEntry): (r: string)
    ensures |r| == 2 * |Encoding.Utf8(e.ip)|
    ensures Encoding.HexDecode(r) == Some(Encoding.Utf8(e.ip))
  {
    Encoding.HexRoundTrip(Encoding.Utf8(e.ip));
    Encoding.HexEncode(Encoding.Utf8(e.ip))
  }

  /** An event counts while its time plus the observation window is strictly after now. */
  predicate InWindow(e: Event, now: int, observationTime: int)
  {
    e.dateTime + observationTime * Minute > now
  }

  /** The effective score: the sum of the weights of the events inside the window. */
  function Score(events: seq<Event>, now: int, observationTime: int): (r: int)
    ensures (forall i :: 0 <= i < |events| ==> events[i].score >= 0) ==> r >= 0
    ensures (forall i :: 0 <= i < |events| ==> !InWindow(events[i], now, observationTime)) ==> r == 0
  {
    if |events| == 0 then 0
    else (if InWindow(events[0], now, observationTime) then events[0].score else 0)
         + Score(events[1..], now, observationTime)
  }

  /** The events inside the window, in their original order. */
  function Prune(events: seq<Event>, now: int, observationTime: int): (r: seq<Event>)
    ensures |r| <= |events|
    ensures forall i :: 0 <= i < |r| ==> InWindow(r[i], now, observationTime) && r[i] in events
  {
    if |events| == 0 then []
    else (if InWindow(events[0], now, observationTime) then [events[0]] else [])
         + Prune(events[1..], now, observationTime)
  }

  /** A new event adds its weight to the score exactly when it is inside the window. */
  lemma {:induction false} ScoreAppend(events: seq<Event>, e: Event, now: int, obs: int)
    ensures Score(events + [e], now, obs)
         == Score(events, now, obs) + (if InWindow(e, now, obs) then e.score else 0)
    ensures Prune(events + [e], now, obs)
         == Prune(events, now, obs) + (if InWindow(e, now, obs) then [e] else [])
    decreases |events|
  {
    if |events| == 0 {
      assert events + [e] == [e];
    } else {
      assert (events + [e])[1..] == events[1..] + [e];
      ScoreAppend(events[1..], e, now, obs);
    }
  }

  /** Pruning keeps exactly the events inside the window and does not change the score. */
  lemma {:induction false} PruneKeepsScore(events: seq<Event>, now: int, obs: int)
    ensures Score(Prune(events, now, obs), now, obs) == Score(events, now, obs)
    ensures forall i :: 0 <= i < |Prune(events, now, obs)| ==> InWindow(Prune(events, now, obs)[i], now, obs)
    decreases |events|
  {
    if |events| > 0 {
      PruneKeepsScore(events[1..], now, obs);
      var rest := Prune(events[1..], now, obs);
      if InWindow(events[0], now, obs) {
        assert ([events[0]] + rest)[1..] == rest;
      } else {
        assert [] + rest == rest;
      }
    }
  }

  /** Events that have all left the window score nothing. */
  lemma {:induction false} ExpiredEventsScoreZero(events: seq<Event>, now: int, obs: int)
    requires forall i :: 0 <= i < |events| ==> !InWindow(events[i], now, obs)
    ensures Score(events, now, obs) == 0
    decreases |events|
  {
    if |events| > 0 {
      ExpiredEventsScoreZero(events[1..], now, obs);
    }
  }

  /** With non-negative weights the score can only decay as time passes. */
  lemma {:induction false} ScoreDecays(events: seq<Event>, now: int, later: int, obs: int)
    requires now <= later
    requires forall i :: 0 <= i < |events| ==> events[i].score >= 0
    ensures Score(events, later, obs) <= Score(events, now, obs)
    decreases |events|
  {
    if |events| > 0 {
      ScoreDecays(events[1..], now, later, obs);
    }
  }

  /** The compaction loop of AddEvent: keep the events inside the window and total them. */
  method PruneEvents(events: seq<Event>, now: int, obs: int) returns (kept: seq<Event>, total: int)
    ensures kept == Prune(events, now, obs)
    ensures total == Score(events, now, obs)
  {
    kept, total := [], 0;
    var i := 0;
    while i < |events|
      invariant 0 <= i <= |events|
      invariant kept == Prune(events[..i], now, obs)
      invariant total == Score(events[..i], now, obs)
    {
      ScoreAppend(events[..i], events[i], now, obs);
      assert events[..i + 1] == events[..i] + [events[i]];
      if InWindow(events[i], now, obs) {
        kept := kept + [events[i]];
        total := total + events[i].score;
      }
      i := i + 1;
    }
    assert events[..i] == events;
  }

  /** The record of a tracked host after the event e: its events inside the window and their score. */
  function Tracked(prior: seq<Event>, e: Event, now: int, obs: int): HostScore
  {
    HostScore(Score(prior + [e], now, obs), Prune(prior + [e], now, obs))
  }

  /** The eviction rank of a host: the time of its latest event (0 when it has none). */
  function LastEventTime(h: HostScore): int
  {
    if |h.events| == 0 then 0 else h.events[|h.events| - 1].dateTime
  }

  function HostRanks(hosts: map<string, HostScore>): (r: map<string, int>)
    ensures r.Keys == hosts.Keys
  {
    map k | k in hosts :: LastEventTime(hosts[k])
  }

  /** The bans still in force at now. */
  function Unexpired(banned: map<string, int>, now: int): (r: map<string, int>)
    ensures r.Keys <= banned.Keys
  {
    map k | k in banned && banned[k] > now :: banned[k]
  }

  /**
   * cleanupHosts: nothing happens up to the hard limit; above it, only the
   * soft-limit hosts whose latest events are the most recent remain.
   */
  ghost predicate HostCleanup(before: map<string, HostScore>, after: map<string, HostScore>, soft: int, hard: int)
  {
    if |before| <= hard then after == before
    else
      && IsSubmap(after, before)
      && |after| == KeepCount(soft, |before|)
      && KeepsHighest(HostRanks(before), after.Keys)
  }

  /**
   * cleanupBanned: nothing happens up to the hard limit; above it, the expired
   * bans go, then, while above the soft limit, the soonest-expiring ones.
   */
  ghost predicate BanCleanup(before: map<string, int>, after: map<string, int>, now: int, soft: int, hard: int)
  {
    if |before| <= hard then after == before
    else
      var live := Unexpired(before, now);
      && IsSubmap(after, live)
      && |after| == KeepCount(soft, |live|)
      && KeepsHighest(live, after.Keys)
  }

  lemma HostCleanupBounded(before: map<string, HostScore>, after: map<string, HostScore>, soft: int, hard: int)
    requires HostCleanup(before, after, soft, hard)
    requires 0 <= soft < hard && |before| <= hard + 1
    ensures |after| <= hard
    ensures after.Keys <= before.Keys
  {
  }

  lemma BanCleanupBounded(before: map<string, int>, after: map<string, int>, now: int, soft: int, hard: int)
    requires BanCleanup(before, after, now, soft, hard)
    requires 0 <= soft < hard && |before| <= hard + 1
    ensures |after| <= hard
    ensures after.Keys <= before.Keys
  {
  }

  /** The addresses a GetHosts result lists. */
  function Addresses(r: seq<DefenderEntry>): set<string>
  {
    set i | 0 <= i < |r| :: r[i].ip
  }

  lemma AddressesAppend(r: seq<DefenderEntry>, e: DefenderEntry)
    ensures Addresses(r + [e]) == Addresses(r) + {e.ip}
  {
    var s := r + [e];
    forall x | x in Addresses(s) ensures x in Addresses(r) + {e.ip} {
      var i :| 0 <= i < |s| && s[i].ip == x;
      if i < |r| {
        assert r[i].ip == x;
      }
    }
    forall x | x in Addresses(r) + {e.ip} ensures x in Addresses(s) {
      if x == e.ip {
        assert s[|r|].ip == x;
      } else {
        var i :| 0 <= i < |r| && r[i].ip == x;
        assert s[i].ip == x;
      }
    }
  }

  /**
   * A host whose latest event is strictly newer than every other host's
   * survives host eviction when the soft limit is positive.
   */
  lemma {:induction false} NewestHostSurvives(before: map<string, HostScore>, after: map<string, HostScore>,
                                              soft: int, hard: int, ip: string)
    requires HostCleanup(before, after, soft, hard)
    requires soft > 0 && ip in before
    requires forall k :: k in before && k != ip ==> LastEventTime(before[k]) < LastEventTime(before[ip])
    ensures ip in after && after[ip] == before[ip]
  {
    if |before| > hard {
      var ranks := HostRanks(before);
      assert |after| > 0;
      assert after.Keys != {} by {
        var k :| k in after;
      }
      StrictlyHighestKept(ranks, after.Keys, ip);
    }
  }

  /**
   * When ban cleanup has to cut the live bans down to a positive soft limit,
   * a ban expiring strictly before every other one is among those removed.
   */
  lemma SoonestBanDropped(before: map<string, int>, after: map<string, int>, now: int, soft: int, hard: int, ip: string)
    requires BanCleanup(before, after, now, soft, hard)
    requires |before| > hard && soft > 0 && |Unexpired(before, now)| > soft
    requires ip in before && before[ip] > now
    requires forall k :: k in before && k != ip ==> before[ip] < before[k]
    ensures ip !in after
  {
    var live := Unexpired(before, now);
    assert after.Keys <= live.Keys;
    StrictlyLowestDropped(live, after.Keys, ip);
  }

  /**
   * When host cleanup runs, a host whose latest event is strictly older than
   * every other host's is among those removed.
   */
  lemma OldestHostDropped(before: map<string, HostScore>, after: map<string, HostScore>, soft: int, hard: int, ip: string)
    requires HostCleanup(before, after, soft, hard)
    requires |before| > hard && soft < |before|
    requires ip in before
    requires forall k :: k in before && k != ip ==> LastEventTime(before[ip]) < LastEventTime(before[k])
    ensures ip !in after
  {
    var ranks := HostRanks(before);
    assert after.Keys <= ranks.Keys;
    assert |after.Keys| < |ranks| by {
      assert |after| == |after.Keys| && |ranks| == |ranks.Keys|;
    }
    StrictlyLowestDropped(ranks, after.Keys, ip);
  }

  /** The events of the cleanup test's first host: five, three and zero minutes before now. */
  function ExampleEvents(now: int): seq<Event>
  {
    [Event(now - 5 * Minute, 1), Event(now - 3 * Minute, 1), Event(now, 1)]
  }

  /** With a one-minute window only the latest of the three events counts, whatever the stored total. */
  lemma ExampleScore(now: int)
    ensures Score(ExampleEvents(now), now, 1) == 1
  {
    var ev := ExampleEvents(now);
    assert Score(ev[2..], now, 1) == 1 by {
      assert ev[2..][1..] == [];
    }
    assert ev[1..][1..] == ev[2..];
  }

  class MemoryDefender {
    const config: DefenderConfig
    const safeList: Option<HostList>
    const blockList: Option<HostList>
    /** How much later IsBanned pushes a ban in force; the amount is not pinned, only that it is positive. */
    const banExtension: int
    var hosts: map<string, HostScore>
    var banned: map<string, int>   // address -> ban expiry

    /** No address is in both tables, and no listed address is in either. */
    ghost predicate Valid()
      reads this
    {
      && banExtension > 0
      && hosts.Keys !! banned.Keys
      && (forall ip :: ip in hosts ==> !Listed(safeList, ip) && !Listed(blockList, ip))
      && (forall ip :: ip in banned ==> !Listed(safeList, ip) && !Listed(blockList, ip))
    }

    ghost predicate WithinLimits()
      reads this
    {
      |hosts| <= config.entriesHardLimit && |banned| <= config.entriesHardLimit
    }

    constructor (config: DefenderConfig, safeList: Option<HostList>, blockList: Option<HostList>, banExtension: int)
      requires banExtension > 0
      ensures this.config == config && this.safeList == safeList && this.blockList == blockList
      ensures this.banExtension == banExtension
      ensures hosts == map[] && banned == map[]
      ensures Valid()
    {
      this.config := config;
      this.safeList := safeList;
      this.blockList := blockList;
      this.banExtension := banExtension;
      hosts := map[];
      banned := map[];
    }

    /** An event for ip changes nothing: the address is listed or its ban is in force. */
    predicate Ignored(ip: string, now: int)
      reads this
    {
      Listed(safeList, ip) || Listed(blockList, ip) || (ip in banned && banned[ip] > now)
    }

    /** The live score of ip: 0 unless tracked, else recomputed from its events, not from the stored total. */
    function GetScore(ip: string, now: int): (r: int)
      reads this
      ensures ip !in hosts ==> r == 0
      ensures ip in hosts ==> r == Score(hosts[ip].events, now, config.observationTime)
    {
      if ip in hosts then Score(hosts[ip].events, now, config.observationTime) else 0
    }

    /** The ban expiry of ip, if it is in the ban table. */
    function GetBanTime(ip: string): (r: Option<int>)
      reads this
      ensures r.Some? <==> ip in banned
      ensures r.Some? ==> r.value == banned[ip]
    {
      if ip in banned then Some(banned[ip]) else None
    }

    /** The entry of ip: banned with score 0, or tracked with its live score; NotFound otherwise. */
    function GetHost(ip: string, now: int): (r: Result<DefenderEntry, LookupError>)
      reads this
      ensures r.Err? <==> ip !in banned && ip !in hosts
      ensures r.Ok? ==> r.value.ip == ip && r.value.banTime == GetBanTime(ip)
      ensures r.Ok? && ip in banned ==> r.value.score == 0
      ensures r.Ok? && ip !in banned ==> r.value.score == GetScore(ip, now)
    {
      if ip in banned then Ok(DefenderEntry(ip, 0, Some(banned[ip])))
      else if ip in hosts then Ok(DefenderEntry(ip, GetScore(ip, now), None))
      else Err(NotFound)
    }

    /** Every banned and every tracked address, once each, with the entry GetHost gives. */
    method GetHosts(now: int) returns (r: seq<DefenderEntry>)
      requires Valid()
      ensures forall i :: 0 <= i < |r| ==> GetHost(r[i].ip, now) == Ok(r[i])
      ensures Addresses(r) == banned.Keys + hosts.Keys
      ensures forall i, j :: 0 <= i < j < |r| ==> r[i].ip != r[j].ip
    {
      r := [];
      var rest := banned.Keys;
      while rest != {}
        invariant rest <= banned.Keys
        invariant forall i :: 0 <= i < |r| ==> GetHost(r[i].ip, now) == Ok(r[i])
        invariant Addresses(r) == banned.Keys - rest
        invariant forall i, j :: 0 <= i < j < |r| ==> r[i].ip != r[j].ip
        decreases rest
      {
        var ip :| ip in rest;
        AddressesAppend(r, DefenderEntry(ip, 0, Some(banned[ip])));
        r := r + [DefenderEntry(ip, 0, Some(banned[ip]))];
        rest := rest - {ip};
      }
      rest := hosts.Keys;
      while rest != {}
        invariant rest <= hosts.Keys
        invariant forall i :: 0 <= i < |r| ==> GetHost(r[i].ip, now) == Ok(r[i])
        invariant Addresses(r) == banned.Keys + (hosts.Keys - rest)
        invariant forall i, j :: 0 <= i < j < |r| ==> r[i].ip != r[j].ip
        decreases rest
      {
        var ip :| ip in rest;
        AddressesAppend(r, DefenderEntry(ip, GetScore(ip, now), None));
        r := r + [DefenderEntry(ip, GetScore(ip, now), None)];
        rest := rest - {ip};
      }
    }

    /**
     * IsBanned: true for a ban in force or a block-listed address. It is not a
     * pure read: a ban in force is pushed banExtension later.
     */
    method IsBanned(ip: string, now: int) returns (b: bool)
      requires Valid()
      modifies this
      ensures Valid() && hosts == old(hosts)
      ensures b == ((ip in old(banned) && old(banned)[ip] > now) || Listed(blockList, ip))
      ensures ip in old(banned) && old(banned)[ip] > now ==>
                banned == old(banned)[ip := old(banned)[ip] + banExtension]
                && banned[ip] > old(banned)[ip]
      ensures !(ip in old(banned) && old(banned)[ip] > now) ==> banned == old(banned)
    {
      if ip in banned && banned[ip] > now {
        banned := banned[ip := banned[ip] + banExtension];
        return true;
      }
      return Listed(blockList, ip);
    }

    /** Removes ip from whichever table holds it; true when something was removed. */
    method DeleteHost(ip: string) returns (removed: bool)
      requires Valid()
      modifies this
      ensures Valid()
      ensures removed == (ip in old(banned) || ip in old(hosts))
      ensures banned == old(banned) - {ip} && hosts == old(hosts) - {ip}
    {
      if ip in banned {
        banned := banned - {ip};
        return true;
      }
      if ip in hosts {
        hosts := hosts - {ip};
        return true;
      }
      return false;
    }

    method CleanupHosts()
      requires Valid()
      modifies this
      ensures Valid() && banned == old(banned)
      ensures HostCleanup(old(hosts), hosts, config.entriesSoftLimit, config.entriesHardLimit)
    {
      if |hosts| > config.entriesHardLimit {
        hosts := EvictLowest(hosts, HostRanks(hosts), config.entriesSoftLimit);
      }
    }

    method CleanupBanned(now: int)
      requires Valid()
      modifies this
      ensures Valid() && hosts == old(hosts)
      ensures BanCleanup(old(banned), banned, now, config.entriesSoftLimit, config.entriesHardLimit)
    {
      if |banned| > config.entriesHardLimit {
        var live := Unexpired(banned, now);
        if |live| > config.entriesSoftLimit {
          live := EvictLowest(live, live, config.entriesSoftLimit);
        }
        banned := live;
      }
    }

    /** The first step of AddEvent on an address whose ban has run out: the ban is forgotten. */
    method ForgetBan(ip: string)
      requires Valid()
      modifies this
      ensures Valid() && hosts == old(hosts) && banned == old(banned) - {ip}
      ensures old(WithinLimits()) ==> WithinLimits()
    {
      banned := banned - {ip};
      assert |banned| <= |old(banned)| by {
        SubsetCard(banned.Keys, old(banned).Keys);
      }
    }

    /** The ban step of AddEvent: the host record goes and a ban for banTime starts at now. */
    method BanHost(ip: string, now: int)
      requires Valid() && ip !in banned
      requires !Listed(safeList, ip) && !Listed(blockList, ip)
      modifies this
      ensures Valid()
      ensures hosts == old(hosts) - {ip}
      ensures BanCleanup(old(banned)[ip := now + config.banTime * Minute], banned, now,
                         config.entriesSoftLimit, config.entriesHardLimit)
      ensures old(WithinLimits()) && 0 <= config.entriesSoftLimit < config.entriesHardLimit ==> WithinLimits()
    {
      hosts := hosts - {ip};
      assert |banned[ip := now + config.banTime * Minute]| == |old(banned)| + 1 by {
        assert banned[ip := now + config.banTime * Minute].Keys == old(banned).Keys + {ip};
      }
      banned := banned[ip := now + config.banTime * Minute];
      ghost var before := banned;
      CleanupBanned(now);
      if old(WithinLimits()) && 0 <= config.entriesSoftLimit < config.entriesHardLimit {
        BanCleanupBounded(before, banned, now, config.entriesSoftLimit, config.entriesHardLimit);
        assert hosts.Keys <= old(hosts).Keys;
        assert |hosts| <= |old(hosts)| by {
          SubsetCard(hosts.Keys, old(hosts).Keys);
        }
      }
    }

    /** The tracking step of AddEvent: store h for ip; a newly inserted host triggers host eviction. */
    method TrackHost(ip: string, h: HostScore)
      requires Valid() && ip !in banned
      requires !Listed(safeList, ip) && !Listed(blockList, ip)
      modifies this
      ensures Valid() && banned == old(banned)
      ensures ip in old(hosts) ==> hosts == old(hosts)[ip := h]
      ensures ip !in old(hosts) ==>
                HostCleanup(old(hosts)[ip := h], hosts, config.entriesSoftLimit, config.entriesHardLimit)
      ensures old(WithinLimits()) && 0 <= config.entriesSoftLimit < config.entriesHardLimit ==> WithinLimits()
    {
      if ip in hosts {
        hosts := hosts[ip := h];
        assert hosts.Keys == old(hosts).Keys;
      } else {
        assert |hosts[ip := h]| == |old(hosts)| + 1 by {
          assert hosts[ip := h].Keys == old(hosts).Keys + {ip};
        }
        hosts := hosts[ip := h];
        ghost var before := hosts;
        CleanupHosts();
        if old(WithinLimits()) && 0 <= config.entriesSoftLimit < config.entriesHardLimit {
          HostCleanupBounded(before, hosts, config.entriesSoftLimit, config.entriesHardLimit);
        }
      }
    }

    /**
     * AddEvent: ignored for listed addresses and bans in force; otherwise an
     * expired ban is forgotten, the event is recorded, and the address is
     * banned for banTime once its live score reaches the threshold.
     */
    method AddEvent(ip: string, kind: HostEvent, now: int)
      requires Valid()
      modifies this
      ensures Valid()
      ensures old(Ignored(ip, now)) ==> hosts == old(hosts) && banned == old(banned)
      ensures !old(Ignored(ip, now)) ==>
        var h := Tracked(if ip in old(hosts) then old(hosts)[ip].events else [],
                         Event(now, Weight(config, kind)), now, config.observationTime);
        var rest := old(banned) - {ip};
        if h.totalScore >= config.threshold then
          && hosts == old(hosts) - {ip}
          && BanCleanup(rest[ip := now + config.banTime * Minute], banned, now,
                        config.entriesSoftLimit, config.entriesHardLimit)
        else if ip in old(hosts) then
          hosts == old(hosts)[ip := h] && banned == rest
        else
          && banned == rest
          && HostCleanup(old(hosts)[ip := h], hosts, config.entriesSoftLimit, config.entriesHardLimit)
      ensures old(WithinLimits()) && 0 <= config.entriesSoftLimit < config.entriesHardLimit ==> WithinLimits()
    {
      if Listed(safeList, ip) || Listed(blockList, ip) {
        return;
      }
      if ip in banned && banned[ip] > now {
        return;
      }
      ForgetBan(ip);
      ghost var rest := banned;
      var ev := Event(now, Weight(config, kind));
      var prior := if ip in hosts then hosts[ip].events else [];
      var kept, total := PruneEvents(prior + [ev], now, config.observationTime);
      if total >= config.threshold {
        BanHost(ip, now);
        assert BanCleanup(rest[ip := now + config.banTime * Minute], banned, now,
                          config.entriesSoftLimit, config.entriesHardLimit);
      } else {
        TrackHost(ip, HostScore(total, kept));
      }
    }
  }

  /** newInMemoryDefender after the list files are loaded: refuses a configuration validate rejects. */
  method NewInMemoryDefender(config: DefenderConfig, safeList: Option<HostList>, blockList: Option<HostList>,
                             banExtension: int)
    returns (r: Result<MemoryDefender, ConfigError>)
    requires banExtension > 0
    ensures r.Err? <==> Validate(config).Some?
    ensures r.Err? ==> r.error == Validate(config).value
    ensures r.Ok? ==> fresh(r.value) && r.value.Valid()
    ensures r.Ok? ==> r.value.config == config && r.value.safeList == safeList && r.value.blockList == blockList
    ensures r.Ok? ==> r.value.banExtension == banExtension
    ensures r.Ok? ==> r.value.hosts == map[] && r.value.banned == map[]
  {
    var err := Validate(config);
    if err.Some? {
      return Err(err.value);
    }
    var d := new MemoryDefender(config, safeList, blockList, banExtension);
    return Ok(d);
  }
}
