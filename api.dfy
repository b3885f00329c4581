/** The local-socket client (`LaMarzocco(LMDirect)`): a status dictionary
    that every library callback merges into with dict.update semantics and
    then stamps, a firmware version recorded once, and the run flag and
    polling task of its poll loop. */
module Api {
  import opened Values
  import opened Outcomes

  /** Keys from the library's message module, which is not part of this
      model; the strings stand in for its values. */
  const POWER: string := "power"
  const DATE_RECEIVED: string := "date_received"
  const UPDATE_AVAILABLE: string := "update_available"
  const FIRMWARE_VER: string := "firmware_ver"

  /** errno.ECONNRESET on Linux. */
  const ECONNRESET: int := 104

  const MICROS_PER_SECOND: int := 1_000_000

  /** `now.replace(microsecond=0)` on a time given in microseconds. */
  function WholeSecond(now: int): (t: int)
    ensures t <= now < t + MICROS_PER_SECOND
    ensures t % MICROS_PER_SECOND == 0
  {
    now - now % MICROS_PER_SECOND
  }

  /** `status.update(incoming)`. */
  function Update(status: Status, incoming: Status): (r: Status)
    ensures r.Keys == status.Keys + incoming.Keys
    ensures forall k :: k in incoming ==> r[k] == incoming[k]
    ensures forall k :: k in status && k !in incoming ==> r[k] == status[k]
  {
    status + incoming
  }

  /** The two assignments after the update: the receive time, truncated to
      the second, and the library's update-available value. */
  function Stamped(status: Status, now: int, updateAvailable: Value): (r: Status)
    ensures r.Keys == status.Keys + {DATE_RECEIVED, UPDATE_AVAILABLE}
    ensures r[DATE_RECEIVED] == Time(WholeSecond(now))
    ensures r[UPDATE_AVAILABLE] == updateAvailable
    ensures forall k :: k in status && k != DATE_RECEIVED && k != UPDATE_AVAILABLE ==> r[k] == status[k]
  {
    status[DATE_RECEIVED := Time(WholeSecond(now))][UPDATE_AVAILABLE := updateAvailable]
  }

  /** The status after one callback carrying `incoming`. */
  function Received(status: Status, incoming: Status, now: int, updateAvailable: Value): (r: Status)
    ensures r.Keys == status.Keys + incoming.Keys + {DATE_RECEIVED, UPDATE_AVAILABLE}
    ensures r[DATE_RECEIVED] == Time(WholeSecond(now)) && r[UPDATE_AVAILABLE] == updateAvailable
    ensures forall k :: k in incoming && k != DATE_RECEIVED && k != UPDATE_AVAILABLE ==> r[k] == incoming[k]
    ensures forall k :: k in status && k !in incoming && k != DATE_RECEIVED && k != UPDATE_AVAILABLE ==>
              r[k] == status[k]
  {
    Stamped(Update(status, incoming), now, updateAvailable)
  }

  /** Several updates, applied left to right. */
  function UpdateAll(status: Status, msgs: seq<Status>): (r: Status)
    ensures status.Keys <= r.Keys
    ensures |msgs| > 0 ==> forall k :: k in msgs[|msgs| - 1] ==> k in r && r[k] == msgs[|msgs| - 1][k]
    decreases |msgs|
  {
    if |msgs| == 0 then status else Update(UpdateAll(status, msgs[..|msgs| - 1]), msgs[|msgs| - 1])
  }

  /** Merging a sequence of messages is their left-to-right union: a key
      is present exactly when the old status or some message has it. */
  lemma {:induction false} UpdateAllKeys(status: Status, msgs: seq<Status>, k: string)
    ensures k in UpdateAll(status, msgs) <==> k in status || exists i :: 0 <= i < |msgs| && k in msgs[i]
    decreases |msgs|
  {
    if |msgs| > 0 {
      var n := |msgs| - 1;
      var front := msgs[..n];
      assert UpdateAll(status, msgs) == Update(UpdateAll(status, front), msgs[n]);
      UpdateAllKeys(status, front, k);
      if k in UpdateAll(status, msgs) && k !in status && k !in msgs[n] {
        var i :| 0 <= i < n && k in front[i];
        assert k in msgs[i];
      }
      if exists i :: 0 <= i < n && k in msgs[i] {
        var i :| 0 <= i < n && k in msgs[i];
        assert k in front[i];
      }
    }
  }

  /** A key carried by some message holds the value of the last message
      that carries it. */
  lemma {:induction false} UpdateAllLastWins(status: Status, msgs: seq<Status>, i: nat, k: string)
    requires i < |msgs| && k in msgs[i]
    requires forall j :: i < j < |msgs| ==> k !in msgs[j]
    ensures k in UpdateAll(status, msgs) && UpdateAll(status, msgs)[k] == msgs[i][k]
    decreases |msgs|
  {
    var n := |msgs| - 1;
    var front := msgs[..n];
    assert UpdateAll(status, msgs) == Update(UpdateAll(status, front), msgs[n]);
    if i < n {
      assert forall j :: i <= j < n ==> front[j] == msgs[j];
      UpdateAllLastWins(status, front, i, k);
    }
  }

  /** A key no message carries keeps its earlier value. */
  lemma {:induction false} UpdateAllKeepsOld(status: Status, msgs: seq<Status>, k: string)
    ensures k in status && (forall i :: 0 <= i < |msgs| ==> k !in msgs[i]) ==>
              UpdateAll(status, msgs)[k] == status[k]
    decreases |msgs|
  {
    if |msgs| > 0 {
      var n := |msgs| - 1;
      var front := msgs[..n];
      assert UpdateAll(status, msgs) == Update(UpdateAll(status, front), msgs[n]);
      UpdateAllKeepsOld(status, front, k);
      assert forall i :: 0 <= i < n ==> front[i] == msgs[i];
    }
  }

  /** One library callback: its message, the time it arrived and the
      library's update-available value at that moment. */
  datatype Callback = Callback(incoming: Status, now: int, updateAvailable: Value)

  /** The status after a run of callbacks, applied in order. */
  function Callbacks(status: Status, cbs: seq<Callback>): (r: Status)
    ensures |cbs| == 0 ==> r == status
    ensures status.Keys <= r.Keys
    ensures |cbs| > 0 ==> var last := cbs[|cbs| - 1];
              DATE_RECEIVED in r && UPDATE_AVAILABLE in r
              && r[DATE_RECEIVED] == Time(WholeSecond(last.now)) && r[UPDATE_AVAILABLE] == last.updateAvailable
    decreases |cbs|
  {
    if |cbs| == 0 then status
    else var last := cbs[|cbs| - 1];
         Received(Callbacks(status, cbs[..|cbs| - 1]), last.incoming, last.now, last.updateAvailable)
  }

  function Messages(cbs: seq<Callback>): (msgs: seq<Status>)
    ensures |msgs| == |cbs| && forall i :: 0 <= i < |cbs| ==> msgs[i] == cbs[i].incoming
  {
    seq(|cbs|, i requires 0 <= i < |cbs| => cbs[i].incoming)
  }

  /** A later stamp hides an earlier one, whatever is merged in between. */
  lemma StampHidesStamp(status: Status, incoming: Status, before: int, beforeAvailable: Value,
                        now: int, updateAvailable: Value)
    ensures Stamped(Update(Stamped(status, before, beforeAvailable), incoming), now, updateAvailable)
            == Stamped(Update(status, incoming), now, updateAvailable)
  {
    var lhs := Stamped(Update(Stamped(status, before, beforeAvailable), incoming), now, updateAvailable);
    var rhs := Stamped(Update(status, incoming), now, updateAvailable);
    assert lhs.Keys == rhs.Keys;
    forall k | k in lhs ensures lhs[k] == rhs[k] {
    }
  }

  /** The stamps of earlier callbacks never show through: after a run of
      callbacks the status is the merge of all their messages, stamped by
      the last one. */
  lemma {:induction false} CallbacksAreOneMerge(status: Status, cbs: seq<Callback>)
    requires |cbs| > 0
    ensures var last := cbs[|cbs| - 1];
            Callbacks(status, cbs) == Stamped(UpdateAll(status, Messages(cbs)), last.now, last.updateAvailable)
    decreases |cbs|
  {
    var n := |cbs| - 1;
    var last := cbs[n];
    var msgs := Messages(cbs);
    assert msgs[..n] == Messages(cbs[..n]);
    assert UpdateAll(status, msgs) == Update(UpdateAll(status, Messages(cbs[..n])), last.incoming);
    if n == 0 {
      assert Messages(cbs[..n]) == [];
    } else {
      var prev := cbs[n - 1];
      CallbacksAreOneMerge(status, cbs[..n]);
      assert cbs[..n][n - 1] == prev;
      StampHidesStamp(UpdateAll(status, Messages(cbs[..n])), last.incoming, prev.now, prev.updateAvailable,
                      last.now, last.updateAvailable);
    }
  }

  /** `_device_version` after a callback, and the firmware version passed to
      a newly scheduled `_update_device_info`, if one is. */
  datatype FirmwareNote = FirmwareNote(version: Value, scheduled: Option<Value>)

  function NoteFirmware(version: Value, status: Status): (r: FirmwareNote)
    ensures r.scheduled.Some? <==> !Truthy(version) && FIRMWARE_VER in status
    ensures r.scheduled.Some? ==> r.version == r.scheduled.value == status[FIRMWARE_VER]
    ensures r.scheduled.None? ==> r.version == version
  {
    if !Truthy(version) && FIRMWARE_VER in status then
      FirmwareNote(status[FIRMWARE_VER], Some(status[FIRMWARE_VER]))
    else
      FirmwareNote(version, None)
  }

  /** The firmware versions passed to `_update_device_info` over a sequence
      of statuses seen after successive callbacks. */
  function ScheduledVersions(version: Value, statuses: seq<Status>): seq<Value>
    decreases |statuses|
  {
    if |statuses| == 0 then []
    else
      var n := NoteFirmware(version, statuses[0]);
      (if n.scheduled.Some? then [n.scheduled.value] else []) + ScheduledVersions(n.version, statuses[1..])
  }

  /** Every firmware value the machine reports is truthy. */
  ghost predicate TruthyFirmware(statuses: seq<Status>)
  {
    forall i :: 0 <= i < |statuses| && FIRMWARE_VER in statuses[i] ==> Truthy(statuses[i][FIRMWARE_VER])
  }

  /** Once a truthy version is recorded, nothing more is scheduled and the
      recorded version is kept, whatever the machine reports. */
  lemma {:induction false} NothingAfterRecorded(version: Value, statuses: seq<Status>)
    requires Truthy(version)
    ensures ScheduledVersions(version, statuses) == []
    decreases |statuses|
  {
    if |statuses| > 0 {
      NothingAfterRecorded(version, statuses[1..]);
    }
  }

  /** While the recorded version and every reported one are falsy, each
      callback schedules the device-info update again, with the reported
      value. */
  lemma {:induction false} FalsyFirmwareRescheduled(version: Value, statuses: seq<Status>)
    requires !Truthy(version)
    requires forall i :: 0 <= i < |statuses| ==>
               FIRMWARE_VER in statuses[i] && !Truthy(statuses[i][FIRMWARE_VER])
    ensures |ScheduledVersions(version, statuses)| == |statuses|
    ensures forall i :: 0 <= i < |statuses| ==>
              ScheduledVersions(version, statuses)[i] == statuses[i][FIRMWARE_VER]
    decreases |statuses|
  {
    if |statuses| > 0 {
      var n := NoteFirmware(version, statuses[0]);
      var rest := statuses[1..];
      assert forall i :: 0 <= i < |rest| ==> rest[i] == statuses[i + 1];
      FalsyFirmwareRescheduled(n.version, rest);
    }
  }

  /** When the reported versions are truthy, the device-info update is
      scheduled at most once over any run of callbacks. */
  lemma {:induction false} FirmwareRecordedOnce(version: Value, statuses: seq<Status>)
    requires TruthyFirmware(statuses)
    ensures |ScheduledVersions(version, statuses)| <= 1
    decreases |statuses|
  {
    if Truthy(version) {
      NothingAfterRecorded(version, statuses);
    } else if |statuses| > 0 {
      var n := NoteFirmware(version, statuses[0]);
      assert TruthyFirmware(statuses[1..]) by {
        forall i | 0 <= i < |statuses[1..]| && FIRMWARE_VER in statuses[1..][i]
          ensures Truthy(statuses[1..][i][FIRMWARE_VER])
        {
          assert statuses[1..][i] == statuses[i + 1];
        }
      }
      if n.scheduled.Some? {
        NothingAfterRecorded(n.version, statuses[1..]);
      } else {
        FirmwareRecordedOnce(n.version, statuses[1..]);
      }
    }
  }

  /** One pass of the poll loop: what `request_status` did, and whether
      `close()` ran while the loop slept afterwards. */
  datatype Tick = Tick(request: Outcome, closedDuringSleep: bool)

  /** How the poll loop ends: `_run` found false after `passes` passes; an
      exception re-raised on the pass with that index; or still running
      when the ticks given run out. */
  datatype FetchEnd = Stopped(passes: nat) | Raised(error: Outcome, pass: nat) | Running(passes: nat)

  /** The outcomes the loop continues after: success, and a socket error
      whose errno is ECONNRESET. The except clause catches socket errors
      only, so every other exception passes through. */
  predicate LoopGoesOn(o: Outcome)
    ensures o == Ok ==> LoopGoesOn(o)
    ensures o.SocketErr? ==> (LoopGoesOn(o) <==> o.errno == ECONNRESET)
    ensures o == AuthFail || o == RequestNotSuccessful || o == OtherErr ==> !LoopGoesOn(o)
  {
    o == Ok || o == SocketErr(ECONNRESET)
  }

  /** `fetch_data`, started with the given run flag after `done` passes. */
  function FetchLoop(run: bool, ticks: seq<Tick>, done: nat): (r: FetchEnd)
    ensures !run ==> r == Stopped(done)
    ensures r.Stopped? ==> done <= r.passes <= done + |ticks|
    ensures r.Raised? ==> done <= r.pass < done + |ticks|
    ensures r.Running? ==> r.passes == done + |ticks|
    decreases |ticks|
  {
    if !run then Stopped(done)
    else if |ticks| == 0 then Running(done)
    else if !LoopGoesOn(ticks[0].request) then Raised(ticks[0].request, done)
    else FetchLoop(!ticks[0].closedDuringSleep, ticks[1..], done + 1)
  }

  /** A tick after which the loop does not go round again. */
  predicate EndsLoop(t: Tick)
  {
    !LoopGoesOn(t.request) || t.closedDuringSleep
  }

  /** The index of the first tick that ends the loop, or |ticks|. */
  function FirstEnd(ticks: seq<Tick>): (f: nat)
    ensures f <= |ticks|
    ensures forall i :: 0 <= i < f ==> !EndsLoop(ticks[i])
    ensures f < |ticks| ==> EndsLoop(ticks[f])
    decreases |ticks|
  {
    if |ticks| == 0 then 0
    else if EndsLoop(ticks[0]) then 0
    else 1 + FirstEnd(ticks[1..])
  }

  /** The loop keeps going through successes and ECONNRESET errors, ends
      with the first other exception re-raised, and exits on the first
      check of the flag after close(). */
  lemma {:induction false} FetchLoopEnds(ticks: seq<Tick>, done: nat)
    ensures var f := FirstEnd(ticks);
            FetchLoop(true, ticks, done) ==
              if f == |ticks| then Running(done + |ticks|)
              else if !LoopGoesOn(ticks[f].request) then Raised(ticks[f].request, done + f)
              else Stopped(done + f + 1)
    decreases |ticks|
  {
    if |ticks| > 0 && !EndsLoop(ticks[0]) {
      FetchLoopEnds(ticks[1..], done + 1);
    }
  }

  /** Only exceptions other than an ECONNRESET socket error escape the loop. */
  lemma {:induction false} FetchLoopRaisesOnlyUnswallowed(run: bool, ticks: seq<Tick>, done: nat)
    ensures FetchLoop(run, ticks, done).Raised? ==>
              var e := FetchLoop(run, ticks, done).error;
              e != Ok && e != SocketErr(ECONNRESET)
    decreases |ticks|
  {
    if run && |ticks| > 0 && LoopGoesOn(ticks[0].request) {
      FetchLoopRaisesOnlyUnswallowed(!ticks[0].closedDuringSleep, ticks[1..], done + 1);
    }
  }

  datatype PollingTask = NoTask | Polling | Cancelled

  class LaMarzocco {
    var currentStatus: Status
    var pollingTask: PollingTask
    var deviceVersion: Value
    /** Firmware versions passed to the scheduled `_update_device_info` tasks. */
    var deviceInfoUpdates: seq<Value>
    var callbackRegistered: bool
    var run: bool

    /** The machine starts in standby until accurate data arrives. */
    constructor ()
      ensures currentStatus == map[POWER := Int(0)]
      ensures pollingTask == NoTask && deviceVersion == Null && deviceInfoUpdates == []
      ensures !callbackRegistered && !run
    {
      var status: Status := map[];
      // start in standby until accurate data arrives
      status := status[POWER := Int(0)];
      currentStatus := status;
      pollingTask := NoTask;
      deviceVersion := Null;
      deviceInfoUpdates := [];
      callbackRegistered := false;
      run := false;
    }

    /** `init_data`: registers the callback, sets the run flag and starts
        the poll loop. */
    method InitData()
      modifies this`callbackRegistered, this`run, this`pollingTask
      ensures callbackRegistered && run && pollingTask == Polling
    {
      callbackRegistered := true;
      run := true;
      pollingTask := Polling;
    }

    /** `close`: clears the run flag and cancels the poll loop if there is one. */
    method Close()
      modifies this`run, this`pollingTask
      ensures !run
      ensures pollingTask == if old(pollingTask) == NoTask then NoTask else Cancelled
    {
      run := false;
      if pollingTask != NoTask {
        pollingTask := Cancelled;
      }
    }

    /** `update_callback`: a call without `current_status` raises a
        TypeError in `dict.update` (`ok` false) before anything changes. */
    method UpdateCallback(incoming: Option<Status>, now: int, updateAvailable: Value) returns (ok: bool)
      modifies this`currentStatus, this`deviceVersion, this`deviceInfoUpdates
      ensures ok <==> incoming.Some?
      ensures !ok ==> currentStatus == old(currentStatus) && deviceVersion == old(deviceVersion)
                      && deviceInfoUpdates == old(deviceInfoUpdates)
      ensures ok ==> currentStatus == Received(old(currentStatus), incoming.value, now, updateAvailable)
      ensures ok ==> var n := NoteFirmware(old(deviceVersion), currentStatus);
                     deviceVersion == n.version
                     && deviceInfoUpdates == old(deviceInfoUpdates) + (if n.scheduled.Some? then [n.scheduled.value] else [])
    {
      if incoming.None? {
        return false;
      }
      currentStatus := Update(currentStatus, incoming.value);
      currentStatus := currentStatus[DATE_RECEIVED := Time(WholeSecond(now))];
      currentStatus := currentStatus[UPDATE_AVAILABLE := updateAvailable];
      if !Truthy(deviceVersion) && FIRMWARE_VER in currentStatus {
        deviceInfoUpdates := deviceInfoUpdates + [currentStatus[FIRMWARE_VER]];
        deviceVersion := currentStatus[FIRMWARE_VER];
      }
      ok := true;
    }

    /** `fetch_data`: the poll loop, run against the given ticks. */
    method FetchData(ticks: seq<Tick>) returns (end: FetchEnd)
      modifies this`run, this`pollingTask
      ensures end == FetchLoop(old(run), ticks, 0)
      ensures end.Stopped? <==> !run
      ensures pollingTask ==
                if old(run) && end.Stopped? && old(pollingTask) != NoTask then Cancelled else old(pollingTask)
    {
      var i := 0;
      while run
        invariant 0 <= i <= |ticks|
        invariant FetchLoop(old(run), ticks, 0) == FetchLoop(run, ticks[i..], i)
        invariant pollingTask ==
                    if old(run) && !run && old(pollingTask) != NoTask then Cancelled else old(pollingTask)
        decreases |ticks| - i
      {
        if i == |ticks| {
          return Running(i);
        }
        var t := ticks[i];
        assert ticks[i..][1..] == ticks[i + 1..];
        match t.request {
          case Ok =>
          case SocketErr(errno) =>
            if errno != ECONNRESET {
              return Raised(t.request, i);
            }
          case _ =>
            return Raised(t.request, i);
        }
        if t.closedDuringSleep {
          Close();
        }
        i := i + 1;
      }
      end := Stopped(i);
    }
  }
}
