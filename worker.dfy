/**
 * The poll-cycle controller (`main` and `poll_emporia`). One iteration of the
 * `while True` loop is a step from the controller's state (the client session,
 * the device gid and the consecutive-failure counter) and the database, driven
 * by what the environment answered at that tick: the clock, the random draws
 * of the demo generator, and the results of the metering library's calls.
 * `Next` is the step as a function; the class `Worker` runs it in place.
 */
module Worker {
  import opened Wrappers
  import opened DeviceIds
  import opened Readings
  import opened Gateway
  import opened Demo

  /** Sleep lengths in seconds, and the failure threshold that forces a reconnect. */
  const WaitForConfigSleep: nat := 30
  const NoDevicesSleep: nat := 60
  const ReconnectSleep: nat := 10
  const ErrorRetrySleep: nat := 60
  const FailureThreshold: nat := 5

  /** Settings fixed at start-up: `DEMO_MODE`, whether the metering library imported, `POLL_INTERVAL`. */
  datatype Config = Config(demoMode: bool, libraryAvailable: bool, pollInterval: nat)

  /** A logged-in client of the metering service. */
  datatype Session = Session(email: string, password: string)

  /** What `login` did. */
  datatype LoginResult = LoggedIn | LoginRaised(message: string)

  /** What `get_devices` returned: the gids of the account's devices, in order, or an exception. */
  datatype DiscoveryResult = Devices(gids: seq<int>) | DiscoveryRaised(message: string)

  /** What `get_device_list_usage` returned: the channels of each device, or an exception. */
  datatype UsageResult = Usage(devices: seq<seq<Channel>>) | UsageRaised(message: string)

  /** Everything the environment decides at one iteration. */
  datatype Tick = Tick(
    now: int,                    // int(time.time())
    hour: int,                   // datetime.now().hour
    draw: DemoDraw,              // the demo generator's random draws
    login: LoginResult,
    discovery: DiscoveryResult,
    usage: UsageResult)

  /** Why a poll raised: the stored gid is not a number (`int(device_gid)`), or the library raised. */
  datatype PollFailure = InvalidGid(text: string) | Raised(message: string)

  /** One JSON line on standard output. */
  datatype Event =
    | ReadingEvent(ts: int, total: real, phaseA: Option<real>, phaseB: Option<real>,
                   circuits: map<string, real>, demo: bool)
    | WaitingForConfig
    | Connecting
    | Connected(deviceGid: string)
    | NoDevicesFound
    | NoDeviceData(deviceGid: string)
    | PollError(cause: PollFailure)
    | LoopError(message: string, retryIn: nat)

  /** The loop's local variables: `vue`, `device_gid`, `consecutive_failures`. */
  datatype Control = Control(vue: Option<Session>, deviceGid: Option<string>, failures: nat)

  datatype Snapshot = Snapshot(ctl: Control, store: StoreState)

  /** The result of one iteration: the new state, the lines emitted, the sleep before the next one. */
  datatype Outcome = Outcome(next: Snapshot, events: seq<Event>, sleep: nat)

  /** The result of `poll_emporia`: success, the database afterwards, the lines emitted. */
  datatype PollResult = PollResult(ok: bool, store: StoreState, events: seq<Event>)

  /** A run of iterations: the final state, every line emitted, every sleep. */
  datatype Trace = Trace(final: Snapshot, events: seq<Event>, sleeps: seq<nat>)

  /** Python truthiness of an optional string: absent and empty both count as missing. */
  predicate Present(o: Option<string>) {
    o.Some? && o.value != ""
  }

  predicate CredentialsPresent(store: StoreState) {
    Present(Lookup(store.config, EmailKey)) && Present(Lookup(store.config, PasswordKey))
  }

  /** What holds between iterations: a session always has a device, and the counter is below the threshold. */
  predicate ControlOk(c: Control) {
    (c.vue.Some? ==> Present(c.deviceGid)) && c.failures < FailureThreshold
  }

  /** A live reading line: the stored values, with each phase published under the null rule. */
  function LiveEvent(r: Reading): (e: Event)
    ensures e.ReadingEvent? && !e.demo
    ensures e.ts == r.ts && e.total == r.total && e.circuits == r.circuits
    ensures e.phaseA == None <==> r.phaseA == None || r.phaseA == Some(0.0)
    ensures e.phaseB == None <==> r.phaseB == None || r.phaseB == Some(0.0)
    ensures e.phaseA != None ==> e.phaseA == r.phaseA
    ensures e.phaseB != None ==> e.phaseB == r.phaseB
  {
    ReadingEvent(r.ts, r.total, PublishPhase(r.phaseA), PublishPhase(r.phaseB), r.circuits, false)
  }

  /** Demo lines publish both phases as they are: the null rule is not applied to them. */
  function DemoEvent(r: Reading): Event {
    ReadingEvent(r.ts, r.total, r.phaseA, r.phaseB, r.circuits, true)
  }

  predicate IsReadingEvent(e: Event) {
    e.ReadingEvent?
  }

  predicate IsLoopError(e: Event) {
    e.LoopError?
  }

  /** `poll_emporia`: parse the gid, fetch, normalize the first device, store, bump, publish. */
  function Poll(store: StoreState, gidText: string, usage: UsageResult, now: int): (p: PollResult)
    ensures p.ok <==> ParseInt(gidText).Some? && usage.Usage? && |usage.devices| > 0
    ensures p.ok ==> p.store.readings == store.readings + [Normalize(now, usage.devices[0])]
    ensures p.ok ==> p.store.status.totalReadings == store.status.totalReadings + 1
    ensures p.ok ==> p.store.config == store.config
    ensures !p.ok ==> p.store == store
    ensures |p.events| == 1 && (IsReadingEvent(p.events[0]) <==> p.ok)
    ensures p.ok ==> p.store == Record(store, Normalize(now, usage.devices[0]))
    ensures p.ok ==> p.store.status.firstReadingTs ==
                     (if store.status.firstReadingTs.Some? then store.status.firstReadingTs else Some(now))
    ensures p.ok ==> p.events == [LiveEvent(Normalize(now, usage.devices[0]))]
    ensures ParseInt(gidText).None? ==> p.events == [PollError(InvalidGid(gidText))]
    ensures ParseInt(gidText).Some? && usage.UsageRaised? ==> p.events == [PollError(Raised(usage.message))]
    ensures ParseInt(gidText).Some? && usage.Usage? && usage.devices == [] ==> p.events == [NoDeviceData(gidText)]
  {
    match ParseInt(gidText)
    case None => PollResult(false, store, [PollError(InvalidGid(gidText))])
    case Some(_) =>
      match usage
      case UsageRaised(message) => PollResult(false, store, [PollError(Raised(message))])
      case Usage(devices) =>
        if devices == [] then PollResult(false, store, [NoDeviceData(gidText)])
        else
          var r := Normalize(now, devices[0]);
          PollResult(true, Record(store, r), [LiveEvent(r)])
  }

  /** Poll with a session, then count the outcome: success resets the counter, the fifth failure in a row drops the session. */
  function AfterPoll(cfg: Config, ctl: Control, store: StoreState, t: Tick, before: seq<Event>): (o: Outcome)
    ensures |o.events| == |before| + 1 && o.events[..|before|] == before
    ensures o.next.ctl.deviceGid == ctl.deviceGid
    ensures o.next.ctl.vue.Some? ==> o.next.ctl.vue == ctl.vue
    ensures o.next.ctl.failures == 0 || o.next.ctl.failures == ctl.failures + 1
    ensures o.next.ctl.vue.None? && ctl.vue.Some? ==>
      ctl.failures + 1 >= FailureThreshold && o.next.ctl.failures == 0 && o.sleep == ReconnectSleep
  {
    var p := Poll(store, ctl.deviceGid.GetOr(""), t.usage, t.now);
    if p.ok then
      Outcome(Snapshot(ctl.(failures := 0), p.store), before + p.events, cfg.pollInterval)
    else if ctl.failures + 1 >= FailureThreshold then
      Outcome(Snapshot(Control(None, ctl.deviceGid, 0), p.store), before + p.events, ReconnectSleep)
    else
      Outcome(Snapshot(ctl.(failures := ctl.failures + 1), p.store), before + p.events, cfg.pollInterval)
  }

  /** No session yet: log in, resolve the device (stored, else the first discovered one), then poll. */
  function Connect(cfg: Config, s: Snapshot, session: Session, t: Tick): (o: Outcome)
    ensures |o.events| >= 2 && o.events[0] == Connecting
    ensures o.next.ctl.vue.Some? ==>
      && o.next.ctl.vue == Some(session)
      && Present(o.next.ctl.deviceGid)
      && o.events[1] == Connected(o.next.ctl.deviceGid.value)
      && o.next.ctl.failures <= 1
    ensures t.login.LoginRaised? ==> o.next == s.(ctl := s.ctl.(vue := None))
  {
    match t.login
    case LoginRaised(message) =>
      Outcome(Snapshot(s.ctl.(vue := None), s.store), [Connecting, LoopError(message, ErrorRetrySleep)], ErrorRetrySleep)
    case LoggedIn =>
      var stored := Lookup(s.store.config, DeviceGidKey);
      if Present(stored) then
        AfterPoll(cfg, Control(Some(session), stored, 0), s.store, t, [Connecting, Connected(stored.value)])
      else
        match t.discovery
        case DiscoveryRaised(message) =>
          Outcome(Snapshot(Control(None, stored, s.ctl.failures), s.store),
                  [Connecting, LoopError(message, ErrorRetrySleep)], ErrorRetrySleep)
        case Devices(gids) =>
          if gids == [] then
            Outcome(Snapshot(Control(None, stored, s.ctl.failures), s.store), [Connecting, NoDevicesFound], NoDevicesSleep)
          else
            var gid := IntToDecimal(gids[0]);
            AfterPoll(cfg, Control(Some(session), Some(gid), 0), WithDeviceGid(s.store, gid), t, [Connecting, Connected(gid)])
  }

  /** One iteration of the loop, in its fixed order: demo, credentials, connection, poll. */
  function Next(cfg: Config, s: Snapshot, t: Tick): (o: Outcome)
    ensures |o.events| >= 1
    ensures o.sleep == cfg.pollInterval || o.sleep == WaitForConfigSleep || o.sleep == NoDevicesSleep
         || o.sleep == ErrorRetrySleep || o.sleep == ReconnectSleep
    ensures s.ctl.vue.Some? && o.next.ctl.vue.None? && !IsLoopError(o.events[|o.events| - 1]) ==>
      s.ctl.failures + 1 >= FailureThreshold && o.sleep == ReconnectSleep && o.next.ctl.failures == 0
  {
    if cfg.demoMode || !cfg.libraryAvailable then
      var r := DemoReading(t.now, t.hour, t.draw);
      Outcome(Snapshot(s.ctl, Record(s.store, r)), [DemoEvent(r)], cfg.pollInterval)
    else if !CredentialsPresent(s.store) then
      Outcome(s, [WaitingForConfig], WaitForConfigSleep)
    else if s.ctl.vue.None? then
      Connect(cfg, s, Session(Lookup(s.store.config, EmailKey).value, Lookup(s.store.config, PasswordKey).value), t)
    else
      AfterPoll(cfg, s.ctl, s.store, t, [])
  }

  /** The iterations of `ticks`, in order, from `s`. */
  function RunAll(cfg: Config, s: Snapshot, ticks: seq<Tick>): (tr: Trace)
    ensures |tr.sleeps| == |ticks|
    ensures |tr.events| >= |ticks|
    decreases |ticks|
  {
    if ticks == [] then Trace(s, [], [])
    else
      var before := RunAll(cfg, s, ticks[..|ticks| - 1]);
      var o := Next(cfg, before.final, ticks[|ticks| - 1]);
      Trace(o.next, before.events + o.events, before.sleeps + [o.sleep])
  }

  // ---------------------------------------------------------------------------
  // Properties of one iteration

  /** Between iterations the counter stays in 0..4 and a session always has a device. */
  lemma NextKeepsControl(cfg: Config, s: Snapshot, t: Tick)
    requires ControlOk(s.ctl)
    ensures ControlOk(Next(cfg, s, t).next.ctl)
  {
  }

  /** Demo mode (or a missing library) comes first: one demo reading, no session change, credentials never consulted. */
  lemma DemoTakesPrecedence(cfg: Config, s: Snapshot, t: Tick, otherConfig: map<string, string>)
    requires cfg.demoMode || !cfg.libraryAvailable
    ensures Next(cfg, s, t).next.ctl == s.ctl
    ensures Next(cfg, s, t).next.store == Record(s.store, DemoReading(t.now, t.hour, t.draw))
    ensures Next(cfg, s, t).sleep == cfg.pollInterval
    ensures Next(cfg, s.(store := s.store.(config := otherConfig)), t).events == Next(cfg, s, t).events
  {
  }

  /** Missing credentials: nothing changes, no connection is attempted, the worker waits 30 s. */
  lemma MissingCredentialsWait(cfg: Config, s: Snapshot, t: Tick)
    requires !cfg.demoMode && cfg.libraryAvailable && !CredentialsPresent(s.store)
    ensures Next(cfg, s, t) == Outcome(s, [WaitingForConfig], WaitForConfigSleep)
  {
  }

  /** A stored device gid is reused: discovery is never consulted and the configuration is not written. */
  lemma StoredDeviceReused(cfg: Config, s: Snapshot, t: Tick, otherDiscovery: DiscoveryResult)
    requires !cfg.demoMode && cfg.libraryAvailable && CredentialsPresent(s.store)
    requires s.ctl.vue.None? && t.login.LoggedIn? && Present(Lookup(s.store.config, DeviceGidKey))
    ensures Next(cfg, s, t).next.ctl.deviceGid == Lookup(s.store.config, DeviceGidKey)
    ensures Next(cfg, s, t).next.store.config == s.store.config
    ensures Next(cfg, s, t) == Next(cfg, s, t.(discovery := otherDiscovery))
  {
  }

  /** Discovery finding nothing: no session, no store, `no_devices_found`, 60 s. */
  lemma NoDevicesFoundResets(cfg: Config, s: Snapshot, t: Tick)
    requires !cfg.demoMode && cfg.libraryAvailable && CredentialsPresent(s.store)
    requires s.ctl.vue.None? && t.login.LoggedIn? && !Present(Lookup(s.store.config, DeviceGidKey))
    requires t.discovery == Devices([])
    ensures Next(cfg, s, t).next.ctl.vue.None?
    ensures Next(cfg, s, t).next.store == s.store
    ensures Next(cfg, s, t).events == [Connecting, NoDevicesFound]
    ensures Next(cfg, s, t).sleep == NoDevicesSleep
  {
  }

  /**
   * Discovery finding devices: the first one's gid is saved, and that gid always
   * parses back, so the poll that follows never fails on the gid itself.
   */
  lemma FirstDiscoveredDeviceSaved(cfg: Config, s: Snapshot, t: Tick)
    requires !cfg.demoMode && cfg.libraryAvailable && CredentialsPresent(s.store)
    requires s.ctl.vue.None? && t.login.LoggedIn? && !Present(Lookup(s.store.config, DeviceGidKey))
    requires t.discovery.Devices? && t.discovery.gids != []
    ensures Lookup(Next(cfg, s, t).next.store.config, DeviceGidKey) == Some(IntToDecimal(t.discovery.gids[0]))
    ensures Next(cfg, s, t).events[..2] == [Connecting, Connected(IntToDecimal(t.discovery.gids[0]))]
    ensures Next(cfg, s, t).events[2] != PollError(InvalidGid(IntToDecimal(t.discovery.gids[0])))
  {
    var gid := IntToDecimal(t.discovery.gids[0]);
    IntRoundTrip(t.discovery.gids[0]);
    assert Poll(WithDeviceGid(s.store, gid), gid, t.usage, t.now).events[0] != PollError(InvalidGid(gid));
  }

  /** Every caught exception (a `LoopError` line) leaves the worker without a session. */
  lemma LoopErrorClearsSession(cfg: Config, s: Snapshot, t: Tick)
    requires exists i :: 0 <= i < |Next(cfg, s, t).events| && IsLoopError(Next(cfg, s, t).events[i])
    ensures Next(cfg, s, t).next.ctl.vue.None?
    ensures Next(cfg, s, t).sleep == ErrorRetrySleep
  {
  }

  /**
   * The counter with a live session: a successful poll resets it, a failed one
   * adds one, and the fifth failure in a row drops the session, resets the counter
   * and sleeps 10 s.
   */
  lemma FailureCounter(cfg: Config, s: Snapshot, t: Tick)
    requires !cfg.demoMode && cfg.libraryAvailable && CredentialsPresent(s.store)
    requires s.ctl.vue.Some? && ControlOk(s.ctl)
    ensures var ok := Poll(s.store, s.ctl.deviceGid.value, t.usage, t.now).ok;
            var o := Next(cfg, s, t);
            && (ok ==> o.next.ctl == s.ctl.(failures := 0) && o.sleep == cfg.pollInterval)
            && (!ok && s.ctl.failures < FailureThreshold - 1 ==>
                  o.next.ctl == s.ctl.(failures := s.ctl.failures + 1) && o.sleep == cfg.pollInterval)
            && (!ok && s.ctl.failures == FailureThreshold - 1 ==>
                  o.next.ctl == Control(None, s.ctl.deviceGid, 0) && o.sleep == ReconnectSleep)
  {
  }

  /** A fresh connection starts the counter from 0 before its first poll is counted. */
  lemma ConnectResetsCounter(cfg: Config, s: Snapshot, t: Tick)
    requires !cfg.demoMode && cfg.libraryAvailable && CredentialsPresent(s.store)
    requires s.ctl.vue.None? && t.login.LoggedIn?
    requires Present(Lookup(s.store.config, DeviceGidKey)) || (t.discovery.Devices? && t.discovery.gids != [])
    ensures Next(cfg, s, t).next.ctl.failures <= 1
  {
  }

  /** The database effects of one iteration, as `NextStoreEffects` states them. */
  ghost predicate StoreStepOk(before: StoreState, o: Outcome) {
    var n := |before.readings|;
    && n <= |o.next.store.readings| <= n + 1
    && o.next.store.readings[..n] == before.readings
    && (|o.next.store.readings| == n + 1 <==> exists i :: 0 <= i < |o.events| && IsReadingEvent(o.events[i]))
    && o.next.store.status.totalReadings == before.status.totalReadings + |o.next.store.readings| - n
    && (before.status.firstReadingTs.Some? ==> o.next.store.status.firstReadingTs == before.status.firstReadingTs)
    && (forall k :: k != DeviceGidKey ==> Lookup(o.next.store.config, k) == Lookup(before.config, k))
  }

  lemma AfterPollStoreEffects(cfg: Config, ctl: Control, store: StoreState, t: Tick, before: seq<Event>)
    requires forall i :: 0 <= i < |before| ==> !IsReadingEvent(before[i])
    ensures var o := AfterPoll(cfg, ctl, store, t, before);
            && |o.next.store.readings| <= |store.readings| + 1
            && o.next.store.readings[..|store.readings|] == store.readings
            && (|o.next.store.readings| == |store.readings| + 1 <==> exists i :: 0 <= i < |o.events| && IsReadingEvent(o.events[i]))
            && o.next.store.status.totalReadings == store.status.totalReadings + |o.next.store.readings| - |store.readings|
            && (store.status.firstReadingTs.Some? ==> o.next.store.status.firstReadingTs == store.status.firstReadingTs)
            && o.next.store.config == store.config
  {
    var o := AfterPoll(cfg, ctl, store, t, before);
    var p := Poll(store, ctl.deviceGid.GetOr(""), t.usage, t.now);
    assert o.events == before + p.events;
    assert o.events[|before|] == p.events[0];
    if p.ok {
      assert o.next.store.readings[..|store.readings|] == store.readings;
    } else {
      forall i | 0 <= i < |o.events| ensures !IsReadingEvent(o.events[i]) {
        if i >= |before| { assert o.events[i] == p.events[0]; }
      }
    }
  }

  /**
   * What one iteration does to the database: readings are only appended, at most
   * one per iteration and exactly when a reading line is emitted; each is counted
   * once; only the device gid key of the configuration may change.
   */
  lemma NextStoreEffects(cfg: Config, s: Snapshot, t: Tick)
    ensures StoreStepOk(s.store, Next(cfg, s, t))
  {
    var o := Next(cfg, s, t);
    if cfg.demoMode || !cfg.libraryAvailable {
      assert o.next.store.readings[..|s.store.readings|] == s.store.readings;
      assert IsReadingEvent(o.events[0]);
    } else if !CredentialsPresent(s.store) {
    } else if s.ctl.vue.None? {
      var stored := Lookup(s.store.config, DeviceGidKey);
      if t.login.LoggedIn? {
        var session := Session(Lookup(s.store.config, EmailKey).value, Lookup(s.store.config, PasswordKey).value);
        if Present(stored) {
          AfterPollStoreEffects(cfg, Control(Some(session), stored, 0), s.store, t, [Connecting, Connected(stored.value)]);
        } else if t.discovery.Devices? && t.discovery.gids != [] {
          var gid := IntToDecimal(t.discovery.gids[0]);
          AfterPollStoreEffects(cfg, Control(Some(session), Some(gid), 0), WithDeviceGid(s.store, gid), t, [Connecting, Connected(gid)]);
        }
      }
    } else {
      AfterPollStoreEffects(cfg, s.ctl, s.store, t, []);
    }
  }

  // ---------------------------------------------------------------------------
  // Properties of a run of iterations

  /** The loop invariant of `main`: after any number of iterations the counter is in 0..4. */
  lemma {:induction false} RunKeepsControl(cfg: Config, s: Snapshot, ticks: seq<Tick>)
    requires ControlOk(s.ctl)
    ensures ControlOk(RunAll(cfg, s, ticks).final.ctl)
    decreases |ticks|
  {
    if ticks != [] {
      RunKeepsControl(cfg, s, ticks[..|ticks| - 1]);
      NextKeepsControl(cfg, RunAll(cfg, s, ticks[..|ticks| - 1]).final, ticks[|ticks| - 1]);
    }
  }

  /** Without credentials (and outside demo mode) the worker waits forever: no connection, no store. */
  lemma {:induction false} RunWithoutCredentials(cfg: Config, s: Snapshot, ticks: seq<Tick>)
    requires !cfg.demoMode && cfg.libraryAvailable && !CredentialsPresent(s.store)
    ensures RunAll(cfg, s, ticks).final == s
    ensures RunAll(cfg, s, ticks).sleeps == seq(|ticks|, _ => WaitForConfigSleep)
    decreases |ticks|
  {
    if ticks != [] {
      RunWithoutCredentials(cfg, s, ticks[..|ticks| - 1]);
    }
  }

  /**
   * Over any run the readings table only grows, every stored reading is counted
   * exactly once, the credentials are never written, and a first-reading timestamp,
   * once set, is never changed.
   */
  lemma {:induction false} RunStoreEffects(cfg: Config, s: Snapshot, ticks: seq<Tick>)
    ensures var f := RunAll(cfg, s, ticks).final.store;
            && |f.readings| >= |s.store.readings|
            && f.readings[..|s.store.readings|] == s.store.readings
            && f.status.totalReadings == s.store.status.totalReadings + |f.readings| - |s.store.readings|
            && (s.store.status.firstReadingTs.Some? ==> f.status.firstReadingTs == s.store.status.firstReadingTs)
            && Lookup(f.config, EmailKey) == Lookup(s.store.config, EmailKey)
            && Lookup(f.config, PasswordKey) == Lookup(s.store.config, PasswordKey)
    decreases |ticks|
  {
    if ticks != [] {
      var mid := RunAll(cfg, s, ticks[..|ticks| - 1]).final;
      RunStoreEffects(cfg, s, ticks[..|ticks| - 1]);
      NextStoreEffects(cfg, mid, ticks[|ticks| - 1]);
      var f := RunAll(cfg, s, ticks).final.store;
      var n := |s.store.readings|;
      assert f.readings[..|mid.store.readings|][..n] == f.readings[..n];
    }
  }

  /** One iteration keeps the status in step with the readings table. */
  lemma NextKeepsStatusMatching(cfg: Config, s: Snapshot, t: Tick)
    requires StatusMatchesReadings(s.store)
    ensures StatusMatchesReadings(Next(cfg, s, t).next.store)
  {
    NextStoreEffects(cfg, s, t);
    var f := Next(cfg, s, t).next.store;
    var n := |s.store.readings|;
    if |f.readings| > n && n > 0 {
      assert f.readings[0] == f.readings[..n][0];
    }
  }

  /**
   * Starting from a status that matches the readings table (a fresh schema), the
   * status keeps matching it: `total_readings` is the number of stored readings and
   * `first_reading_ts` the timestamp of the first one.
   */
  lemma {:induction false} RunKeepsStatusMatching(cfg: Config, s: Snapshot, ticks: seq<Tick>)
    requires StatusMatchesReadings(s.store)
    ensures StatusMatchesReadings(RunAll(cfg, s, ticks).final.store)
    decreases |ticks|
  {
    if ticks != [] {
      RunKeepsStatusMatching(cfg, s, ticks[..|ticks| - 1]);
      NextKeepsStatusMatching(cfg, RunAll(cfg, s, ticks[..|ticks| - 1]).final, ticks[|ticks| - 1]);
    }
  }

  // ---------------------------------------------------------------------------
  // The worker in place

  /** `poll_emporia` against the live database. */
  method PollEmporia(db: Database, gidText: string, usage: UsageResult, now: int) returns (ok: bool, events: seq<Event>)
    modifies db
    ensures PollResult(ok, db.State(), events) == Poll(old(db.State()), gidText, usage, now)
  {
    if ParseInt(gidText).None? {
      return false, [PollError(InvalidGid(gidText))];
    }
    match usage
    case UsageRaised(message) =>
      return false, [PollError(Raised(message))];
    case Usage(devices) =>
      if devices == [] {
        return false, [NoDeviceData(gidText)];
      }
      var total, phaseA, phaseB, circuits := ClassifyChannels(devices[0]);
      var r := Reading(now, total, phaseA, phaseB, circuits);
      db.StoreReading(r);
      db.UpdateLearningStatus(now);
      return true, [ReadingEvent(now, total, PublishPhase(phaseA), PublishPhase(phaseB), circuits, false)];
  }

  /** `generate_demo_reading` against the live database. */
  method GenerateDemoReading(db: Database, now: int, hour: int, draw: DemoDraw) returns (event: Event)
    modifies db
    ensures db.State() == Record(old(db.State()), DemoReading(now, hour, draw))
    ensures event == DemoEvent(DemoReading(now, hour, draw))
  {
    var r := DemoReading(now, hour, draw);
    db.StoreReading(r);
    db.UpdateLearningStatus(now);
    event := ReadingEvent(r.ts, r.total, r.phaseA, r.phaseB, r.circuits, true);
  }

  /** The worker process: its settings, its database connection and the loop's local variables. */
  class Worker {
    const cfg: Config
    const db: Database
    var vue: Option<Session>
    var deviceGid: Option<string>
    var consecutiveFailures: nat

    function Ctl(): Control
      reads this
    {
      Control(vue, deviceGid, consecutiveFailures)
    }

    function Snap(): Snapshot
      reads this, db
    {
      Snapshot(Ctl(), db.State())
    }

    ghost predicate Valid()
      reads this
    {
      ControlOk(Ctl())
    }

    constructor (cfg: Config, db: Database)
      ensures this.cfg == cfg && this.db == db
      ensures Ctl() == Control(None, None, 0) && Valid()
    {
      this.cfg := cfg;
      this.db := db;
      vue := None;
      deviceGid := None;
      consecutiveFailures := 0;
    }

    /** One pass through the body of the `while True` loop. */
    method Step(t: Tick) returns (events: seq<Event>, sleep: nat)
      requires Valid()
      modifies this, db
      ensures Valid()
      ensures Outcome(Snap(), events, sleep) == Next(cfg, old(Snap()), t)
    {
      NextKeepsControl(cfg, Snap(), t);
      if cfg.demoMode || !cfg.libraryAvailable {
        var e := GenerateDemoReading(db, t.now, t.hour, t.draw);
        return [e], cfg.pollInterval;
      }

      var email, password := db.GetCredentials();
      if !Present(email) || !Present(password) {
        return [WaitingForConfig], WaitForConfigSleep;
      }

      if vue.None? {
        events, sleep := ConnectAndPoll(Session(email.value, password.value), t);
      } else {
        events, sleep := PollAndCount(t, []);
      }
    }

    /** The `if vue is None` branch: log in, resolve the device, and go on to poll. */
    method ConnectAndPoll(session: Session, t: Tick) returns (events: seq<Event>, sleep: nat)
      requires vue.None?
      modifies this, db
      ensures Outcome(Snap(), events, sleep) == Connect(cfg, old(Snap()), session, t)
    {
      events := [Connecting];
      vue := Some(session);
      if t.login.LoginRaised? {
        vue := None;
        return events + [LoopError(t.login.message, ErrorRetrySleep)], ErrorRetrySleep;
      }

      deviceGid := db.GetDeviceGid();
      if !Present(deviceGid) {
        match t.discovery
        case DiscoveryRaised(message) =>
          vue := None;
          return events + [LoopError(message, ErrorRetrySleep)], ErrorRetrySleep;
        case Devices(gids) =>
          if gids == [] {
            vue := None;
            return events + [NoDevicesFound], NoDevicesSleep;
          }
          deviceGid := Some(IntToDecimal(gids[0]));
          db.SaveDeviceGid(deviceGid.value);
      }
      consecutiveFailures := 0;
      events, sleep := PollAndCount(t, events + [Connected(deviceGid.value)]);
    }

    /** Poll with the current session and update the failure counter, reconnecting after the fifth failure. */
    method PollAndCount(t: Tick, before: seq<Event>) returns (events: seq<Event>, sleep: nat)
      modifies this, db
      ensures Outcome(Snap(), events, sleep) == AfterPoll(cfg, old(Ctl()), old(db.State()), t, before)
    {
      var ok, pollEvents := PollEmporia(db, deviceGid.GetOr(""), t.usage, t.now);
      events := before + pollEvents;
      if ok {
        consecutiveFailures := 0;
      } else {
        consecutiveFailures := consecutiveFailures + 1;
        if consecutiveFailures >= FailureThreshold {
          vue := None;
          consecutiveFailures := 0;
          return events, ReconnectSleep;
        }
      }
      sleep := cfg.pollInterval;
    }

    /** The loop itself, over a finite run of ticks; the end of the run stands for the interrupt. */
    method Run(ticks: seq<Tick>) returns (emitted: seq<Event>, slept: seq<nat>)
      requires Valid()
      modifies this, db
      ensures Valid()
      ensures Trace(Snap(), emitted, slept) == RunAll(cfg, old(Snap()), ticks)
    {
      emitted, slept := [], [];
      var i := 0;
      while i < |ticks|
        invariant 0 <= i <= |ticks|
        invariant Valid()
        invariant Trace(Snap(), emitted, slept) == RunAll(cfg, old(Snap()), ticks[..i])
      {
        var events, sleep := Step(ticks[i]);
        emitted, slept := emitted + events, slept + [sleep];
        assert ticks[..i + 1][..i] == ticks[..i];
        i := i + 1;
      }
      assert ticks[..i] == ticks;
    }
  }
}
