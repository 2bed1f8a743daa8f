/**
 * The reading normalizer: the channel loop of `poll_emporia`, which turns the
 * channels of one device into a reading (total, phase A, phase B, circuits), and
 * the rule by which a phase is published.
 */
module Readings {
  import opened Wrappers

  /** Channel numbers that mark the mains: both legs together, the first leg, the second leg. */
  const TotalMarker: string := "1,2,3"
  const PhaseAMarker: string := "1,2"
  const PhaseBMarker: string := "3,4"

  /** One channel as the metering library reports it; `usage` may be missing. */
  datatype Channel = Channel(channelNum: string, name: string, usage: Option<real>)

  /** A stored reading (one row of the raw readings table). */
  datatype Reading = Reading(
    ts: int,
    total: real,
    phaseA: Option<real>,
    phaseB: Option<real>,
    circuits: map<string, real>)

  /** `channel.usage or 0.0`: a missing usage counts as 0. */
  function UsageOf(c: Channel): real {
    c.usage.GetOr(0.0)
  }

  predicate IsMarker(num: string) {
    num == TotalMarker || num == PhaseAMarker || num == PhaseBMarker
  }

  /** A channel that the loop puts into the circuit map: not a main, named, and drawing power. */
  predicate IsCircuit(c: Channel) {
    !IsMarker(c.channelNum) && c.name != "" && UsageOf(c) > 0.0
  }

  /** The usage of the last channel numbered `marker`, if there is one (later channels overwrite earlier ones). */
  function LastMarked(channels: seq<Channel>, marker: string): (r: Option<real>)
    ensures r.Some? ==> exists i :: 0 <= i < |channels| && channels[i].channelNum == marker && r.value == UsageOf(channels[i])
  {
    if channels == [] then None
    else
      var c := channels[|channels| - 1];
      if c.channelNum == marker then Some(UsageOf(c))
      else LastMarked(channels[..|channels| - 1], marker)
  }

  /** The circuit map built by the loop: each circuit channel, in order, writes `circuits[name] = usage`. */
  function CircuitsOf(channels: seq<Channel>): (r: map<string, real>)
    ensures forall k :: k in r ==> k != "" && r[k] > 0.0
  {
    if channels == [] then map[]
    else
      var c := channels[|channels| - 1];
      var before := CircuitsOf(channels[..|channels| - 1]);
      if IsCircuit(c) then before[c.name := UsageOf(c)] else before
  }

  /** The reading of one device at time `ts`: total defaults to 0.0, the phases to absent. */
  function Normalize(ts: int, channels: seq<Channel>): (r: Reading)
    ensures r.ts == ts
    ensures (forall i :: 0 <= i < |channels| ==> channels[i].channelNum != TotalMarker) ==> r.total == 0.0
    ensures r.phaseA.None? <==> forall i :: 0 <= i < |channels| ==> channels[i].channelNum != PhaseAMarker
    ensures r.phaseB.None? <==> forall i :: 0 <= i < |channels| ==> channels[i].channelNum != PhaseBMarker
    ensures forall k :: k in r.circuits ==> k != "" && r.circuits[k] > 0.0
  {
    LastMarkedNone(channels, TotalMarker);
    LastMarkedNone(channels, PhaseAMarker);
    LastMarkedNone(channels, PhaseBMarker);
    Reading(
      ts,
      LastMarked(channels, TotalMarker).GetOr(0.0),
      LastMarked(channels, PhaseAMarker),
      LastMarked(channels, PhaseBMarker),
      CircuitsOf(channels))
  }

  /** The loop of `poll_emporia` over `device.channels`, updating the four accumulators in place. */
  method ClassifyChannels(channels: seq<Channel>)
    returns (total: real, phaseA: Option<real>, phaseB: Option<real>, circuits: map<string, real>)
    ensures Reading(0, total, phaseA, phaseB, circuits) == Normalize(0, channels)
  {
    total, phaseA, phaseB, circuits := 0.0, None, None, map[];
    var i := 0;
    while i < |channels|
      invariant 0 <= i <= |channels|
      invariant total == LastMarked(channels[..i], TotalMarker).GetOr(0.0)
      invariant phaseA == LastMarked(channels[..i], PhaseAMarker)
      invariant phaseB == LastMarked(channels[..i], PhaseBMarker)
      invariant circuits == CircuitsOf(channels[..i])
    {
      var channel := channels[i];
      var usage := UsageOf(channel);
      if channel.channelNum == TotalMarker {
        total := usage;
      } else if channel.channelNum == PhaseAMarker {
        phaseA := Some(usage);
      } else if channel.channelNum == PhaseBMarker {
        phaseB := Some(usage);
      } else if channel.name != "" && usage > 0.0 {
        circuits := circuits[channel.name := usage];
      }
      assert channels[..i + 1][..i] == channels[..i];
      i := i + 1;
    }
    assert channels[..i] == channels;
  }

  /** `round(p, 2) if p else None`, without the rounding: a phase that is absent or exactly 0 is published as null. */
  function PublishPhase(p: Option<real>): (r: Option<real>)
    ensures r == None <==> p == None || p == Some(0.0)
    ensures r != None ==> r == p
  {
    match p
    case None => None
    case Some(v) => if v == 0.0 then None else Some(v)
  }

  /** A marker is absent from the reading exactly when no channel carries it. */
  lemma {:induction false} LastMarkedNone(channels: seq<Channel>, marker: string)
    ensures LastMarked(channels, marker) == None <==> forall i :: 0 <= i < |channels| ==> channels[i].channelNum != marker
  {
    if channels != [] {
      var prefix := channels[..|channels| - 1];
      LastMarkedNone(prefix, marker);
      assert forall i :: 0 <= i < |prefix| ==> prefix[i] == channels[i];
    }
  }

  /** Repeated marker channels: the last one in order wins. */
  lemma {:induction false} LastMarkedWins(channels: seq<Channel>, marker: string, i: int)
    requires 0 <= i < |channels| && channels[i].channelNum == marker
    requires forall j :: i < j < |channels| ==> channels[j].channelNum != marker
    ensures LastMarked(channels, marker) == Some(UsageOf(channels[i]))
  {
    if i < |channels| - 1 {
      var prefix := channels[..|channels| - 1];
      assert prefix[i] == channels[i];
      LastMarkedWins(prefix, marker, i);
    }
  }

  /** A name is a key of the circuit map exactly when some circuit channel carries it. */
  lemma {:induction false} CircuitKeys(channels: seq<Channel>, name: string)
    ensures name in CircuitsOf(channels) <==> exists i :: 0 <= i < |channels| && IsCircuit(channels[i]) && channels[i].name == name
  {
    if channels != [] {
      var prefix := channels[..|channels| - 1];
      CircuitKeys(prefix, name);
      assert forall i :: 0 <= i < |prefix| ==> prefix[i] == channels[i];
      if name in CircuitsOf(channels) && !IsCircuit(channels[|channels| - 1]) {
        assert name in CircuitsOf(prefix);
      }
    }
  }

  /** Duplicate circuit names: the last circuit channel with that name gives the value. */
  lemma {:induction false} CircuitLastWins(channels: seq<Channel>, i: int)
    requires 0 <= i < |channels| && IsCircuit(channels[i])
    requires forall j :: i < j < |channels| ==> !(IsCircuit(channels[j]) && channels[j].name == channels[i].name)
    ensures channels[i].name in CircuitsOf(channels)
    ensures CircuitsOf(channels)[channels[i].name] == UsageOf(channels[i])
  {
    if i < |channels| - 1 {
      var prefix := channels[..|channels| - 1];
      assert prefix[i] == channels[i];
      CircuitLastWins(prefix, i);
    }
  }

  /** Channels that are mains, unnamed, or idle (usage missing, zero or negative) never reach the circuit map. */
  lemma {:induction false} NonCircuitsIgnored(channels: seq<Channel>, c: Channel)
    requires !IsCircuit(c)
    ensures CircuitsOf(channels + [c]) == CircuitsOf(channels)
  {
    assert (channels + [c])[..|channels|] == channels;
  }

  /** Two mains and no named channels: total and phase A are taken, phase B stays absent, no circuits. */
  lemma MainsOnlyScenario()
    ensures Normalize(7, [Channel(TotalMarker, "", Some(1000.0)), Channel(PhaseAMarker, "", Some(550.0))])
         == Reading(7, 1000.0, Some(550.0), None, map[])
  {
    var channels := [Channel(TotalMarker, "", Some(1000.0)), Channel(PhaseAMarker, "", Some(550.0))];
    assert channels[..1] == [channels[0]] && [channels[0]][..0] == [];
    LastMarkedNone(channels, PhaseBMarker);
    assert !IsCircuit(channels[0]) && !IsCircuit(channels[1]);
    assert CircuitsOf(channels[..1]) == CircuitsOf([]) == map[];
    assert CircuitsOf(channels) == map[];
    assert LastMarked(channels, TotalMarker) == Some(1000.0);
    assert LastMarked(channels, PhaseAMarker) == Some(550.0);
    assert LastMarked(channels, PhaseBMarker) == None;
    assert Normalize(7, channels) == Reading(7, 1000.0, Some(550.0), None, map[]);
  }
}
