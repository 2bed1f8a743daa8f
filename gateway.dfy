/**
 * The persistence gateway: the worker's view of the database. The key/value
 * configuration table is a map, the raw readings table an append-only sequence,
 * and the learning-status table its single row.
 */
module Gateway {
  import opened Wrappers
  import opened Readings

  /** Configuration keys the worker reads (credentials) or writes (the selected device). */
  const EmailKey: string := "emporia_email"
  const PasswordKey: string := "emporia_password"
  const DeviceGidKey: string := "device_gid"

  /** The single learning-status row: when the first reading was taken and how many were stored. */
  datatype LearningStatus = LearningStatus(firstReadingTs: Option<int>, totalReadings: nat)

  /** The whole database as a value. */
  datatype StoreState = StoreState(config: map<string, string>, readings: seq<Reading>, status: LearningStatus)

  /** Looking a key up; a missing configuration table reads the same as a missing key. */
  function Lookup(config: map<string, string>, key: string): Option<string> {
    if key in config then Some(config[key]) else None
  }

  /** `first_reading_ts = COALESCE(first_reading_ts, ts), total_readings = total_readings + 1`. */
  function Bump(s: LearningStatus, ts: int): (r: LearningStatus)
    ensures r.totalReadings == s.totalReadings + 1
    ensures r.firstReadingTs.Some?
    ensures s.firstReadingTs.Some? ==> r.firstReadingTs == s.firstReadingTs
    ensures s.firstReadingTs.None? ==> r.firstReadingTs == Some(ts)
  {
    LearningStatus(if s.firstReadingTs.Some? then s.firstReadingTs else Some(ts), s.totalReadings + 1)
  }

  /** The status after one bump per timestamp, in order. */
  function BumpAll(s: LearningStatus, stamps: seq<int>): LearningStatus
    decreases |stamps|
  {
    if stamps == [] then s else BumpAll(Bump(s, stamps[0]), stamps[1..])
  }

  /** `store_reading` followed by `update_learning_status`, as every live poll and demo tick does. */
  function Record(s: StoreState, r: Reading): (after: StoreState)
    ensures after.readings == s.readings + [r]
    ensures after.config == s.config
    ensures after.status.totalReadings == s.status.totalReadings + 1
    ensures s.status.firstReadingTs.Some? ==> after.status.firstReadingTs == s.status.firstReadingTs
    ensures s.status.firstReadingTs.None? ==> after.status.firstReadingTs == Some(r.ts)
  {
    s.(readings := s.readings + [r], status := Bump(s.status, r.ts))
  }

  /** `save_device_gid`: an upsert that leaves every other key alone. */
  function WithDeviceGid(s: StoreState, gid: string): (after: StoreState)
    ensures Lookup(after.config, DeviceGidKey) == Some(gid)
    ensures forall k :: k != DeviceGidKey ==> Lookup(after.config, k) == Lookup(s.config, k)
    ensures after.readings == s.readings && after.status == s.status
  {
    s.(config := s.config[DeviceGidKey := gid])
  }

  /** After N bumps the counter has grown by exactly N; the first timestamp is set once and then kept. */
  lemma {:induction false} BumpAllCounts(s: LearningStatus, stamps: seq<int>)
    ensures BumpAll(s, stamps).totalReadings == s.totalReadings + |stamps|
    ensures BumpAll(s, stamps).firstReadingTs ==
      if s.firstReadingTs.Some? then s.firstReadingTs
      else if stamps == [] then None
      else Some(stamps[0])
    decreases |stamps|
  {
    if stamps != [] {
      BumpAllCounts(Bump(s, stamps[0]), stamps[1..]);
    }
  }

  /**
   * The status matches the readings table: one bump per stored reading, and the
   * first timestamp is that of the first stored reading.
   */
  predicate StatusMatchesReadings(s: StoreState) {
    && s.status.totalReadings == |s.readings|
    && s.status.firstReadingTs == (if s.readings == [] then None else Some(s.readings[0].ts))
  }

  /** Recording a reading keeps the status in step with the readings table and changes no configuration. */
  lemma RecordKeepsStatus(s: StoreState, r: Reading)
    requires StatusMatchesReadings(s)
    ensures StatusMatchesReadings(Record(s, r))
    ensures Record(s, r).config == s.config
    ensures Record(s, r).readings[..|s.readings|] == s.readings
  {
  }

  /** The database connection, mutated in place by the worker. */
  class Database {
    var config: map<string, string>
    var readings: seq<Reading>
    var status: LearningStatus

    /** A freshly initialised schema: an empty table per kind and a zeroed status row. */
    constructor (config: map<string, string>)
      ensures State() == StoreState(config, [], LearningStatus(None, 0))
    {
      this.config := config;
      readings := [];
      status := LearningStatus(None, 0);
    }

    function State(): StoreState
      reads this
    {
      StoreState(config, readings, status)
    }

    /** `get_credentials`: the email and password, each absent when its key (or the table) is missing. */
    method GetCredentials() returns (email: Option<string>, password: Option<string>)
      ensures email.Some? <==> EmailKey in config
      ensures password.Some? <==> PasswordKey in config
      ensures email.Some? ==> email.value == config[EmailKey]
      ensures password.Some? ==> password.value == config[PasswordKey]
    {
      email := Lookup(config, EmailKey);
      password := Lookup(config, PasswordKey);
    }

    /** `get_device_gid`: the stored device identifier, absent when no row (or no table) exists. */
    method GetDeviceGid() returns (gid: Option<string>)
      ensures gid.Some? <==> DeviceGidKey in config
      ensures gid.Some? ==> gid.value == config[DeviceGidKey]
    {
      gid := Lookup(config, DeviceGidKey);
    }

    /** `save_device_gid`: `INSERT OR REPLACE` of the device row. */
    method SaveDeviceGid(gid: string)
      modifies this
      ensures State() == WithDeviceGid(old(State()), gid)
      ensures Lookup(config, DeviceGidKey) == Some(gid)
    {
      config := config[DeviceGidKey := gid];
    }

    /** `store_reading`: one row appended, nothing else touched. */
    method StoreReading(r: Reading)
      modifies this
      ensures readings == old(readings) + [r]
      ensures config == old(config) && status == old(status)
    {
      readings := readings + [r];
    }

    /** `update_learning_status`: coalesce the first timestamp, then count one more reading. */
    method UpdateLearningStatus(ts: int)
      modifies this
      ensures status == Bump(old(status), ts)
      ensures status.totalReadings == old(status.totalReadings) + 1
      ensures old(status.firstReadingTs).Some? ==> status.firstReadingTs == old(status.firstReadingTs)
      ensures old(status.firstReadingTs).None? ==> status.firstReadingTs == Some(ts)
      ensures config == old(config) && readings == old(readings)
    {
      var first := if status.firstReadingTs.Some? then status.firstReadingTs else Some(ts);
      status := LearningStatus(first, status.totalReadings + 1);
    }
  }
}
