/**
  Evidence about a route's context window: a cache of probe results with expiry, owner
  acknowledgements that outrank it, and the rule that an outage never erases what was confirmed.
 */
module CapabilityEvidence {
  import opened Wrappers

  const CONFIRMED_TTL_SEC: real := 86400.0
  const FAILED_TTL_SEC: real := 600.0

  datatype Status = Confirmed | Asserted | Unprobeable | Failed
  datatype Source = ProviderMetadata | LocalHealth | OwnerAck | GenerativeProbe | NoSource

  /** A cached probe result; `at` is its time stamp, if that parses. */
  datatype Record = Record(window: int, status: Status, source: Source, at: Option<real>)

  datatype Ack = Ack(window: int, at: Option<real>)

  datatype Evidence = Evidence(window: int, status: Status, source: Source, at: Option<real>, stale: bool)

  /** The evidence file; routes are named by their fingerprints. */
  datatype Store = Store(probes: map<string, Record>, acks: map<string, Ack>)

  /** Outcome of one oversized request: not sent, never answered, or answered with a status code
      (if any) and the token limit read from the body (0 when there is none). */
  datatype Generative = NotApplicable | Raised | Response(code: Option<int>, limit: int)

  /** One probe: its route and flags, the clock, and what the outside world would answer. */
  datatype Call = Call(
    route: string, now: real, useLocal: bool, allowFetch: bool, allowGenerative: bool, force: bool,
    localWindow: int, metadataWindow: int, generative: Generative, transportFailed: bool)

  predicate Known(s: Status) {
    s.Confirmed? || s.Asserted?
  }

  /** The gate: only known evidence of a large enough window passes. */
  predicate ConfirmsAtLeast(e: Option<Evidence>, threshold: int) {
    e.Some? && Known(e.value.status) && e.value.window >= threshold
  }

  function Classify(g: Generative): (int, Status) {
    match g
    case NotApplicable => (0, Unprobeable)
    case Raised => (0, Failed)
    case Response(code, limit) =>
      if code.Some? && 400 <= code.value < 500 then (if limit > 0 then (limit, Confirmed) else (0, Unprobeable))
      else if code == Some(200) then (0, Unprobeable)
      else (0, Failed)
  }

  predicate Fresh(r: Record, now: real) {
    r.at.Some? &&
    (if now - r.at.value > 0.0 then now - r.at.value else 0.0)
      <= (if r.status.Confirmed? then CONFIRMED_TTL_SEC else FAILED_TTL_SEC)
  }

  function Cached(s: Store, route: string): Option<Record> {
    if route in s.probes then Some(s.probes[route]) else None
  }

  /** The cache answers without a live probe. */
  predicate Served(cached: Option<Record>, c: Call) {
    && cached.Some?
    && !c.force
    && !(c.allowGenerative && !cached.value.status.Confirmed?)
    && Fresh(cached.value, c.now)
  }

  /** The window a live probe finds, with its source; 0 when it finds none. */
  function LiveWindow(c: Call): (int, Source) {
    if c.useLocal && c.localWindow > 0 then (c.localWindow, LocalHealth)
    else if c.metadataWindow > 0 then (c.metadataWindow, ProviderMetadata)
    else if c.allowGenerative && !c.useLocal && Classify(c.generative).0 > 0 then (Classify(c.generative).0, GenerativeProbe)
    else (0, NoSource)
  }

  /** The oversized request failed in transit and nothing else found a window. */
  predicate GenerativeFailed(c: Call) {
    LiveWindow(c).0 <= 0 && c.allowGenerative && !c.useLocal && Classify(c.generative).1.Failed?
  }

  /** The entry a probe writes for its route, given the file version it read; `None`: it writes nothing. */
  function WriteOf(s: Store, c: Call): Option<Record> {
    var cached := Cached(s, c.route);
    if c.route in s.acks || Served(cached, c) || !c.allowFetch then None
    else if GenerativeFailed(c) then Some(Record(0, Failed, NoSource, Some(c.now)))
    else if LiveWindow(c).0 > 0 then Some(Record(LiveWindow(c).0, Confirmed, LiveWindow(c).1, Some(c.now)))
    else if cached.Some? && Known(cached.value.status) && cached.value.window > 0 then None
    else Some(Record(0, if c.transportFailed then Failed else Unprobeable, NoSource, Some(c.now)))
  }

  function Answer(s: Store, c: Call): Evidence {
    var cached := Cached(s, c.route);
    if c.route in s.acks then Evidence(s.acks[c.route].window, Asserted, OwnerAck, s.acks[c.route].at, false)
    else if Served(cached, c) then Shown(cached.value, false)
    else if !c.allowFetch then
      (if cached.Some? then Shown(cached.value, true) else Evidence(0, Unprobeable, NoSource, None, false))
    else
      match WriteOf(s, c)
      case Some(r) => Shown(r, false)
      case None => Shown(cached.value, true)
  }

  function Shown(r: Record, stale: bool): Evidence {
    Evidence(r.window, r.status, r.source, r.at, stale)
  }

  function Written(s: Store, route: string, r: Option<Record>): Store {
    if r.Some? then s.(probes := s.probes[route := r.value]) else s
  }

  class EvidenceStore {
    var probes: map<string, Record>
    var acks: map<string, Ack>

    ghost function Value(): Store
      reads this
    {
      Store(probes, acks)
    }

    constructor ()
      ensures Value() == Store(map[], map[])
    {
      probes, acks := map[], map[];
    }

    method RecordOwnerAck(route: string, window: int, now: real)
      modifies this`acks
      ensures acks == old(acks)[route := Ack(window, Some(now))]
    {
      acks := acks[route := Ack(window, Some(now))];
    }

    method RevokeOwnerAck(route: string) returns (revoked: bool)
      modifies this`acks
      ensures revoked == (route in old(acks))
      ensures acks == old(acks) - {route}
    {
      if route in acks {
        acks := acks - {route};
        return true;
      }
      assert acks - {route} == acks;
      return false;
    }

    method Probe(c: Call) returns (e: Evidence)
      modifies this`probes
      ensures e == Answer(old(Value()), c)
      ensures Value() == Written(old(Value()), c.route, WriteOf(old(Value()), c))
    {
      if c.route in acks {
        return Evidence(acks[c.route].window, Asserted, OwnerAck, acks[c.route].at, false);
      }
      var cached := if c.route in probes then Some(probes[c.route]) else None;
      var skipCache := c.allowGenerative && (cached.None? || !cached.value.status.Confirmed?);
      if cached.Some? && !c.force && !skipCache && Fresh(cached.value, c.now) {
        return Shown(cached.value, false);
      }
      if !c.allowFetch {
        if cached.Some? {
          return Shown(cached.value, true);
        }
        return Evidence(0, Unprobeable, NoSource, None, false);
      }
      var window, source := 0, NoSource;
      if c.useLocal && c.localWindow > 0 {
        window, source := c.localWindow, LocalHealth;
      }
      if window <= 0 && c.metadataWindow > 0 {
        window, source := c.metadataWindow, ProviderMetadata;
      }
      if window <= 0 && c.allowGenerative && !c.useLocal {
        var (limit, status) := Classify(c.generative);
        if limit > 0 {
          window, source := limit, GenerativeProbe;
        } else if status.Failed? {
          probes := probes[c.route := Record(0, Failed, NoSource, Some(c.now))];
          return Shown(probes[c.route], false);
        }
      }
      if window > 0 {
        probes := probes[c.route := Record(window, Confirmed, source, Some(c.now))];
        return Shown(probes[c.route], false);
      }
      if cached.Some? && Known(cached.value.status) && cached.value.window > 0 {
        return Shown(cached.value, true);
      }
      probes := probes[c.route := Record(0, if c.transportFailed then Failed else Unprobeable, NoSource, Some(c.now))];
      return Shown(probes[c.route], false);
    }
  }

  // ---- What one probe does ----

  /** A confirmed record lasts a day and any other ten minutes; one without a readable time stamp is
      always outdated. */
  predicate Outdated(r: Record, now: real) {
    r.at.None? || now - r.at.value > if r.status.Confirmed? then 86400.0 else 600.0
  }

  /** The probe has to look for itself: it may, nobody acknowledged the route, and there is no record,
      or it is outdated, or the probe is forced, or a save-time probe finds an unconfirmed record. */
  predicate Looks(s: Store, c: Call) {
    && c.allowFetch && c.route !in s.acks
    && (c.route in s.probes ==>
          c.force || Outdated(s.probes[c.route], c.now) || (c.allowGenerative && !s.probes[c.route].status.Confirmed?))
  }

  predicate Records(s: Store, c: Call, window: int, status: Status, source: Source) {
    && Next(s, Probe(c)) == s.(probes := s.probes[c.route := Record(window, status, source, Some(c.now))])
    && Answer(s, c) == Evidence(window, status, source, Some(c.now), false)
  }

  /** A record that is neither outdated nor overruled is the answer, and stays. */
  lemma FreshRecordIsServed(s: Store, c: Call)
    requires c.route !in s.acks && c.route in s.probes && !c.force && !Outdated(s.probes[c.route], c.now)
    requires c.allowGenerative ==> s.probes[c.route].status.Confirmed?
    ensures var r := s.probes[c.route];
      Next(s, Probe(c)) == s && Answer(s, c) == Evidence(r.window, r.status, r.source, r.at, false)
  {}

  /** The oversized request was refused as a client error that names the limit. */
  predicate Refused(g: Generative) {
    g.Response? && g.code.Some? && 400 <= g.code.value < 500 && g.limit > 0
  }

  /** A probe that looks takes the first window it finds: the local server's, the provider's, and at a
      save the limit an oversized request was refused with. It is recorded as confirmed. */
  lemma FirstWindowIsConfirmed(s: Store, c: Call)
    requires Looks(s, c)
    ensures c.useLocal && c.localWindow > 0 ==> Records(s, c, c.localWindow, Confirmed, LocalHealth)
    ensures !(c.useLocal && c.localWindow > 0) && c.metadataWindow > 0 ==>
      Records(s, c, c.metadataWindow, Confirmed, ProviderMetadata)
    ensures c.localWindow <= 0 && c.metadataWindow <= 0 && c.allowGenerative && !c.useLocal && Refused(c.generative) ==>
      Records(s, c, c.generative.limit, Confirmed, GenerativeProbe)
  {}

  /** Without one, an oversized request that failed in transit, with any code but 200 or a refusal,
      is recorded as failed; otherwise what was known with a window is kept and shown as stale, and
      where nothing was known the route is recorded as failed or unprobeable. */
  lemma NothingFound(s: Store, c: Call)
    requires Looks(s, c) && c.localWindow <= 0 && c.metadataWindow <= 0
    requires c.generative.Response? ==> c.generative.limit <= 0
    ensures var lost := c.allowGenerative && !c.useLocal
        && (c.generative.Raised? || (c.generative.Response? && c.generative.code != Some(200)
            && !(c.generative.code.Some? && 400 <= c.generative.code.value < 500)));
      var kept := c.route in s.probes && s.probes[c.route].window > 0
        && (s.probes[c.route].status.Confirmed? || s.probes[c.route].status.Asserted?);
      if lost then Records(s, c, 0, Failed, NoSource)
      else if kept then
        && Next(s, Probe(c)) == s
        && Answer(s, c) == Evidence(s.probes[c.route].window, s.probes[c.route].status, s.probes[c.route].source, s.probes[c.route].at, true)
      else Records(s, c, 0, if c.transportFailed then Failed else Unprobeable, NoSource)
  {}

  // ---- Runs of probes ----

  predicate HasConfirmed(s: Store, route: string) {
    route in s.probes && s.probes[route].status.Confirmed? && s.probes[route].window > 0
  }

  datatype Step = Probe(call: Call) | RecordAck(route: string, window: int, now: real) | RevokeAck(route: string)

  function Next(s: Store, e: Step): Store {
    match e
    case Probe(c) => Written(s, c.route, WriteOf(s, c))
    case RecordAck(route, window, now) => s.(acks := s.acks[route := Ack(window, Some(now))])
    case RevokeAck(route) => s.(acks := s.acks - {route})
  }

  function Run(s: Store, steps: seq<Step>): Store
    decreases steps
  {
    if steps == [] then s else Run(Next(s, steps[0]), steps[1..])
  }

  /** The one way to lose a confirmed record: a generative probe that is let through (no owner
      acknowledgement, and the record expired or the probe forced), finds no window elsewhere,
      and fails in transit. */
  predicate Erases(s: Store, route: string, e: Step) {
    && e.Probe?
    && e.call.route == route
    && route !in s.acks
    && !Served(Cached(s, route), e.call)
    && e.call.allowFetch
    && GenerativeFailed(e.call)
  }

  /** A step loses a route's confirmed record exactly when it erases in the above sense. */
  lemma ErasesExactly(s: Store, route: string, e: Step)
    requires HasConfirmed(s, route)
    ensures !HasConfirmed(Next(s, e), route) <==> Erases(s, route, e)
  {}

  predicate NeverErases(s: Store, route: string, steps: seq<Step>)
    decreases steps
  {
    steps != [] ==> !Erases(s, route, steps[0]) && NeverErases(Next(s, steps[0]), route, steps[1..])
  }

  lemma {:induction false} ConfirmedUnlessErased(s: Store, route: string, steps: seq<Step>)
    requires HasConfirmed(s, route) && NeverErases(s, route, steps)
    ensures HasConfirmed(Run(s, steps), route)
    decreases steps
  {
    if steps != [] {
      ErasesExactly(s, route, steps[0]);
      ConfirmedUnlessErased(Next(s, steps[0]), route, steps[1..]);
    }
  }

  /** Over every sequence of non-generative probes, acknowledgements and revocations, whatever
      the clocks, forced refreshes and outages, a route that once had a confirmed record keeps a
      confirmed record with a positive window. */
  lemma {:induction false} ConfirmedForever(s: Store, route: string, steps: seq<Step>)
    requires HasConfirmed(s, route)
    requires forall e :: e in steps && e.Probe? ==> !e.call.allowGenerative
    ensures HasConfirmed(Run(s, steps), route)
    decreases steps
  {
    if steps != [] {
      ErasesExactly(s, route, steps[0]);
      ConfirmedForever(Next(s, steps[0]), route, steps[1..]);
    }
  }

  /** The erasing path, concretely: a forced save-time probe that times out. */
  lemma GenerativeTimeoutErases()
    ensures var s := Store(map["r" := Record(1000000, Confirmed, ProviderMetadata, Some(0.0))], map[]);
      var c := Call("r", 1.0, false, true, true, true, 0, 0, Response(None, 0), false);
      HasConfirmed(s, "r") && !HasConfirmed(Next(s, Probe(c)), "r")
  {}

  /** While an exact-route acknowledgement exists, every probe of the route returns it and
      writes nothing; a probe that may not fetch writes nothing either; and no probe touches
      another route or any acknowledgement. */
  lemma WhatProbesLeaveAlone(s: Store, c: Call, other: string)
    ensures c.route in s.acks ==>
      && Next(s, Probe(c)) == s
      && Answer(s, c) == Evidence(s.acks[c.route].window, Asserted, OwnerAck, s.acks[c.route].at, false)
    ensures !c.allowFetch ==> Next(s, Probe(c)) == s
    ensures other != c.route ==> Cached(Next(s, Probe(c)), other) == Cached(s, other)
    ensures Next(s, Probe(c)).acks == s.acks
  {}

  /** What a gate that may not fetch lets through: exactly a large enough acknowledgement of the
      route or, without one, a large enough known record, however old. */
  lemma HotPathGate(s: Store, c: Call, threshold: int)
    requires !c.allowFetch
    ensures ConfirmsAtLeast(Some(Answer(s, c)), threshold) <==>
      if c.route in s.acks then s.acks[c.route].window >= threshold
      else c.route in s.probes && s.probes[c.route].window >= threshold
             && (s.probes[c.route].status.Confirmed? || s.probes[c.route].status.Asserted?)
  {}

  // ---- Probes that overlap ----

  predicate HasKnown(s: Store, route: string) {
    route in s.probes && Known(s.probes[route].status) && s.probes[route].window > 0
  }

  /** A probe reads the file, goes out, and writes to whatever the file has become. It loses a
      confirmed record that others stored meanwhile if and only if it may fetch, the version it
      read neither acknowledges nor serves the route, it finds no window, and either the oversized
      request failed in transit or the version read had no known record to keep. */
  lemma OverlappingProbe(read: Store, now: Store, c: Call)
    requires HasConfirmed(now, c.route)
    ensures !HasConfirmed(Written(now, c.route, WriteOf(read, c)), c.route) <==>
      && c.allowFetch && c.route !in read.acks && !Served(Cached(read, c.route), c)
      && LiveWindow(c).0 <= 0
      && (GenerativeFailed(c) || !HasKnown(read, c.route))
  {}

  /** A non-generative probe that had itself read a confirmed record is harmless, however much
      the file changed under it; one that had not, and then meets an outage, is not. */
  lemma OutageAfterStaleRead(read: Store, now: Store, c: Call)
    requires HasConfirmed(now, c.route) && !c.allowGenerative && c.allowFetch && c.route !in read.acks
    requires LiveWindow(c).0 <= 0 && !Served(Cached(read, c.route), c)
    ensures HasConfirmed(Written(now, c.route, WriteOf(read, c)), c.route) <==> HasKnown(read, c.route)
  {
    OverlappingProbe(read, now, c);
  }

  /** The overlap, concretely: a probe that read an empty file and meets an outage overwrites what
      another probe has confirmed meanwhile. */
  lemma OverlappingOutageErases()
    ensures var read, now := Store(map[], map[]), Store(map["r" := Record(1000000, Confirmed, ProviderMetadata, Some(0.0))], map[]);
      var c := Call("r", 1.0, false, true, false, false, 0, 0, NotApplicable, true);
      HasConfirmed(now, "r") && !HasConfirmed(Written(now, "r", WriteOf(read, c)), "r")
  {}
}
