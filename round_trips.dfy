/** `RoundTripInfo` of test/TestEnv.py: it remembers the last reading of a
    session's round-trip counter and reports how far the counter moved since.
    The counter reading, which the source fetches from the backend's
    statistics views over an administrative connection, is an argument. */
module RoundTrips {
  import opened Parameters

  /** What successive calls report for a run of readings, starting from the
      remembered reading `prev`. */
  function Deltas(prev: int, readings: seq<int>): (r: seq<int>)
    ensures |r| == |readings|
    decreases |readings|
  {
    if readings == [] then [] else [readings[0] - prev] + Deltas(readings[0], readings[1..])
  }

  function Sum(xs: seq<int>): int {
    if xs == [] then 0 else xs[0] + Sum(xs[1..])
  }

  /** The last reading of a run, or `prev` for an empty run. */
  function LastOr(readings: seq<int>, prev: int): int {
    if readings == [] then prev else readings[|readings| - 1]
  }

  /** Each reported value is that reading minus the one before it. */
  lemma {:induction false} DeltaAt(prev: int, readings: seq<int>, i: nat)
    requires i < |readings|
    ensures Deltas(prev, readings)[i] == readings[i] - (if i == 0 then prev else readings[i - 1])
    decreases i
  {
    if i > 0 {
      DeltaAt(readings[0], readings[1..], i - 1);
    }
  }

  /** A sample taken while the counter has not moved reports 0; a counter
      that went down reports a negative value, as nothing clamps it. */
  lemma QuiescentSampleIsZero(prev: int, readings: seq<int>, i: nat)
    requires 0 < i < |readings|
    ensures readings[i] == readings[i - 1] <==> Deltas(prev, readings)[i] == 0
    ensures readings[i] < readings[i - 1] <==> Deltas(prev, readings)[i] < 0
  {
    DeltaAt(prev, readings, i);
  }

  /** The reported values of a run add up to the last reading minus the
      remembered one. */
  lemma {:induction false} DeltasTelescope(prev: int, readings: seq<int>)
    ensures Sum(Deltas(prev, readings)) == LastOr(readings, prev) - prev
    decreases |readings|
  {
    if readings != [] {
      DeltasTelescope(readings[0], readings[1..]);
      if |readings| > 1 {
        assert readings[1..][|readings| - 2] == readings[|readings| - 1];
      }
    }
  }

  /** Taking one more sample appends its difference from the last reading. */
  lemma {:induction false} DeltasAppend(prev: int, readings: seq<int>, current: int)
    ensures Deltas(prev, readings + [current]) == Deltas(prev, readings) + [current - LastOr(readings, prev)]
    decreases |readings|
  {
    if readings != [] {
      assert (readings + [current])[1..] == readings[1..] + [current];
      DeltasAppend(readings[0], readings[1..], current);
      if |readings| > 1 {
        assert readings[1..][|readings| - 2] == readings[|readings| - 1];
      }
    }
  }

  /** The values reported after the constructor's own sample add up to the
      latest reading minus the reading taken by the constructor. */
  lemma SamplesSinceConstruction(readings: seq<int>)
    requires readings != []
    ensures Sum(Deltas(0, readings)[1..]) == readings[|readings| - 1] - readings[0]
  {
    assert Deltas(0, readings)[1..] == Deltas(readings[0], readings[1..]);
    DeltasTelescope(readings[0], readings[1..]);
    if |readings| > 1 {
      assert readings[1..][|readings| - 2] == readings[|readings| - 1];
    }
  }

  class RoundTripInfo {
    /** The counter reading taken by the previous sample. */
    var prevRoundTrips: int
    /** The tracked session's identifier. */
    var sid: string
    /** What the administrative connection was opened with. */
    var adminConnectString: string
    /** Every reading taken, oldest first, and every value reported. */
    ghost var readings: seq<int>
    ghost var reported: seq<int>

    ghost predicate Valid()
      reads this
    {
      prevRoundTrips == LastOr(readings, 0) && reported == Deltas(0, readings)
    }

    /** `RoundTripInfo(connection)`: starts from 0, opens the administrative
        connection (resolving its connect string through the parameter
        cache), records the session identifier and takes a first sample,
        whose result is discarded. */
    constructor (cache: ParameterCache, env: Environment, reply: Terminal, sid: string, reading: int)
      requires cache.Valid()
      modifies cache
      ensures cache.Valid()
      ensures AdminUserKey in cache.parameters && cache.parameters[AdminUserKey].Text?
      ensures AdminPasswordKey in cache.parameters && cache.parameters[AdminPasswordKey].Text?
      ensures ConnectStringKey in cache.parameters && cache.parameters[ConnectStringKey].Text?
      ensures cache.parameters == Resolved(Resolved(
                Resolved(old(cache.parameters), AdminUserKey, "Administrative user", DefaultAdminUser, env, reply),
                AdminPasswordKey, "Password for " + cache.parameters[AdminUserKey].text, "", env, reply),
                ConnectStringKey, "Connect String", DefaultConnectString, env, reply)
      ensures cache.asked == old(cache.asked) + Asks(old(cache.parameters), env, AdminUserKey)
                             + Asks(old(cache.parameters), env, AdminPasswordKey)
                             + Asks(old(cache.parameters), env, ConnectStringKey)
      ensures adminConnectString == cache.parameters[AdminUserKey].text + "/"
                + cache.parameters[AdminPasswordKey].text + "@" + cache.parameters[ConnectStringKey].text
      ensures Valid() && this.sid == sid
      ensures prevRoundTrips == reading && readings == [reading]
    {
      prevRoundTrips := 0;
      readings, reported := [], [];
      var admin := cache.GetAdminConnectString(env, reply);
      adminConnectString := admin;
      this.sid := sid;
      new;
      var _ := GetRoundTrips(reading);
    }

    /** `getRoundTrips()`, given the counter's current reading. */
    method GetRoundTrips(current: int) returns (delta: int)
      requires Valid()
      modifies this
      ensures Valid()
      ensures delta == current - old(prevRoundTrips)
      ensures prevRoundTrips == current
      ensures readings == old(readings) + [current] && reported == old(reported) + [delta]
      ensures sid == old(sid) && adminConnectString == old(adminConnectString)
    {
      DeltasAppend(0, readings, current);
      delta := current - prevRoundTrips;
      prevRoundTrips := current;
      readings := readings + [current];
      reported := reported + [delta];
    }
  }
}
