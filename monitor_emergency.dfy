/**
 * The live alert monitor: an ordered alert list fed by a push socket and a
 * 5-second poll, the selected alert, and a looping alarm sound. Socket
 * parsing, poll responses and backend acknowledgements arrive as inputs.
 */
module MonitorEmergency {
  import opened Wrappers
  import opened Text
  import opened Seqs

  /** One alert as the backend sends it; `status` and `timestamp_handled` may be absent. */
  datatype Alert = Alert(
    alertId: int,
    accountNumber: string,
    accountName: Option<string>,
    firstName: string,
    lastName: string,
    phoneNumbers: Option<string>,
    latitude: string,
    longitude: string,
    timestamp: string,
    timestampHandled: Option<string>,
    status: Option<string>)

  /** Status exactly "C": the only entries the poll drops. */
  predicate IsCompleted(a: Alert) {
    a.status == Some("C")
  }

  /** The poll result with completed entries removed, in response order. */
  function OpenAlerts(data: seq<Alert>): (r: seq<Alert>)
    ensures forall i :: 0 <= i < |r| ==> !IsCompleted(r[i])
    ensures forall a :: a in r <==> a in data && !IsCompleted(a)
    ensures forall a :: !IsCompleted(a) ==> multiset(r)[a] == multiset(data)[a]
    ensures IsSubseq(r, data)
  {
    var r := Filter(data, a => !IsCompleted(a));
    forall a ensures a in r <==> a in data && !IsCompleted(a) {
      FilterMembership(data, a => !IsCompleted(a), a);
    }
    r
  }

  /** Applying the poll filter a second time changes nothing. */
  lemma OpenAlertsIdempotent(data: seq<Alert>)
    ensures OpenAlerts(OpenAlerts(data)) == OpenAlerts(data)
  {
    var r := OpenAlerts(data);
    FilterKeepsAll(r, a => !IsCompleted(a));
  }

  /** One entry of the click handler's `map`: stamped when its id is `id`. */
  function Stamp(a: Alert, id: int, now: string): Alert {
    if a.alertId == id then a.(timestampHandled := Some(now)) else a
  }

  /** Every entry with id `id` gets `timestampHandled := now`; nothing else changes. */
  function StampHandled(alerts: seq<Alert>, id: int, now: string): (r: seq<Alert>)
    ensures |r| == |alerts|
    ensures forall i :: 0 <= i < |r| ==> r[i].alertId == alerts[i].alertId
    ensures forall i :: 0 <= i < |r| && alerts[i].alertId == id ==>
      r[i].timestampHandled == Some(now) && r[i].(timestampHandled := alerts[i].timestampHandled) == alerts[i]
    ensures forall i :: 0 <= i < |r| && alerts[i].alertId != id ==> r[i] == alerts[i]
  {
    seq(|alerts|, i requires 0 <= i < |alerts| => Stamp(alerts[i], id, now))
  }

  /** The list without any entry with id `id`; the others keep their order. */
  function WithoutAlert(alerts: seq<Alert>, id: int): (r: seq<Alert>)
    ensures forall i :: 0 <= i < |r| ==> r[i].alertId != id
    ensures forall a: Alert :: a.alertId != id ==> multiset(r)[a] == multiset(alerts)[a]
    ensures IsSubseq(r, alerts)
  {
    Filter(alerts, (a: Alert) => a.alertId != id)
  }

  /** Completing an alert after stamping it leaves the same list as completing it directly. */
  lemma {:induction false} CompleteAfterStamp(alerts: seq<Alert>, id: int, now: string)
    ensures WithoutAlert(StampHandled(alerts, id, now), id) == WithoutAlert(alerts, id)
  {
    if |alerts| > 0 {
      var s := StampHandled(alerts, id, now);
      assert s[1..] == StampHandled(alerts[1..], id, now);
      CompleteAfterStamp(alerts[1..], id, now);
    }
  }

  /** A row is highlighted iff its status, trimmed and upper-cased, is "N". */
  predicate IsHighlighted(a: Alert) {
    a.status.Some? && ToUpper(Trim(a.status.value)) == "N"
  }

  /** `s` is one letter n or N with nothing but white space around it. */
  ghost predicate IsPaddedN(s: string) {
    exists i :: 0 <= i < |s| && (s[i] == 'N' || s[i] == 'n') &&
      forall k :: 0 <= k < |s| && k != i ==> IsWhitespace(s[k])
  }

  /** A highlighted status is a lone n or N padded by white space. */
  lemma HighlightedIsPaddedN(s: string)
    requires ToUpper(Trim(s)) == "N"
    ensures IsPaddedN(s)
  {
    var t := TrimStart(s);
    var u := TrimEnd(t);
    assert u == Trim(s);
    UpperIsN(u);
    assert u == "N" || u == "n";
    var i := |s| - |t|;
    assert s[i] == u[0];
    forall k | 0 <= k < |s| && k != i ensures IsWhitespace(s[k]) {
      if k > i {
        assert t[k - i] == s[k];
      }
    }
    assert (s[i] == 'N' || s[i] == 'n') && forall k :: 0 <= k < |s| && k != i ==> IsWhitespace(s[k]);
  }

  /** A lone n or N padded by white space is highlighted. */
  lemma PaddedNIsHighlighted(s: string)
    requires IsPaddedN(s)
    ensures ToUpper(Trim(s)) == "N"
  {
    var t := TrimStart(s);
    var u := TrimEnd(t);
    var i :| 0 <= i < |s| && (s[i] == 'N' || s[i] == 'n') &&
      forall k :: 0 <= k < |s| && k != i ==> IsWhitespace(s[k]);
    var j := |s| - |t|;
    assert j <= i by { assert !IsWhitespace(s[i]); }
    assert t[0] == s[j];
    assert j == i;
    assert |u| > 0 by { assert !IsWhitespace(t[0]); }
    assert u[|u| - 1] == t[|u| - 1] == s[i + |u| - 1];
    assert |u| == 1;
    assert u == [s[i]];
    UpperIsN(u);
  }

  /** The highlight rule stated without trim/upper-case: a lone n or N, padded by white space. */
  lemma HighlightIff(a: Alert)
    ensures IsHighlighted(a) <==> a.status.Some? && IsPaddedN(a.status.value)
  {
    if a.status.Some? {
      if IsHighlighted(a) {
        HighlightedIsPaddedN(a.status.value);
      }
      if IsPaddedN(a.status.value) {
        PaddedNIsHighlighted(a.status.value);
      }
    }
  }

  /** The alarm: an audio element's `loop`, paused state and playback position. */
  class AlarmSound {
    var loop: bool
    var paused: bool
    var currentTime: nat

    /** A freshly loaded sound: not looping, paused at the start. */
    constructor ()
      ensures !loop && paused && currentTime == 0
    {
      loop, paused, currentTime := false, true, 0;
    }

    /** `audio.play()`: resumes from the current position. */
    method Play()
      modifies this
      ensures !paused && loop == old(loop) && currentTime == old(currentTime)
    {
      paused := false;
    }

    /** `audio.pause()`: keeps the position. */
    method Pause()
      modifies this
      ensures paused && loop == old(loop) && currentTime == old(currentTime)
    {
      paused := true;
    }
  }

  /** The monitor page's state. */
  class Monitor {
    var alerts: seq<Alert>
    var selectedAlert: Option<Alert>
    const audio: AlarmSound

    constructor ()
      ensures alerts == [] && selectedAlert == None
      ensures fresh(audio) && !audio.loop && audio.paused && audio.currentTime == 0
    {
      alerts, selectedAlert := [], None;
      audio := new AlarmSound();
    }

    /** Looping playback of the alarm. */
    method PlayAlertSound()
      modifies audio
      ensures audio.loop && !audio.paused && audio.currentTime == old(audio.currentTime)
    {
      audio.loop := true;
      audio.Play();
    }

    /** Silences the alarm and rewinds it. */
    method StopAlertSound()
      modifies audio
      ensures audio.paused && audio.currentTime == 0 && audio.loop == old(audio.loop)
    {
      audio.Pause();
      audio.currentTime := 0;
    }

    /**
     * A socket message; `parsed` is None when the JSON did not parse. A
     * parsed alert is appended as it is, even when its id is already listed.
     */
    method OnSocketMessage(parsed: Option<Alert>)
      modifies this, audio
      ensures parsed.Some? ==>
        alerts == old(alerts) + [parsed.value] &&
        audio.loop && !audio.paused && audio.currentTime == old(audio.currentTime)
      ensures parsed.None? ==> alerts == old(alerts) && unchanged(audio)
      ensures selectedAlert == old(selectedAlert)
    {
      if parsed.Some? {
        alerts := alerts + [parsed.value];
        PlayAlertSound();
      }
    }

    /** One poll of the unhandled alerts; `response` is None when the request or the filter failed. */
    method FetchUnhandledAlerts(response: Option<seq<Alert>>)
      modifies this
      ensures alerts == if response.Some? then OpenAlerts(response.value) else old(alerts)
      ensures selectedAlert == old(selectedAlert)
    {
      if response.Some? {
        alerts := OpenAlerts(response.value);
      }
    }

    /**
     * A click on an alert row: it becomes the selection and the alarm stops
     * whatever the backend says; only an acknowledged request stamps
     * `timestampHandled` (with the time `now`) on the entries with its id.
     */
    method HandleAlertClick(alert: Alert, acknowledged: bool, now: string)
      modifies this, audio
      ensures selectedAlert == Some(alert)
      ensures audio.paused && audio.currentTime == 0 && audio.loop == old(audio.loop)
      ensures alerts == if acknowledged then StampHandled(old(alerts), alert.alertId, now) else old(alerts)
    {
      selectedAlert := Some(alert);
      StopAlertSound();
      if acknowledged {
        OnHandledTimeSaved(alert.alertId, now);
      }
    }

    /** The click handler's continuation once the backend has saved the handled time. */
    method OnHandledTimeSaved(alertId: int, now: string)
      modifies this
      ensures alerts == StampHandled(old(alerts), alertId, now)
      ensures selectedAlert == old(selectedAlert)
    {
      alerts := StampHandled(alerts, alertId, now);
    }

    /**
     * The complete handler: only an acknowledged request removes the alert
     * and clears the selection. The Complete button runs it together with
     * the row's click handler (see `ClickComplete`).
     */
    method HandleCompleteAlert(alertId: int, acknowledged: bool)
      modifies this
      ensures acknowledged ==> alerts == WithoutAlert(old(alerts), alertId) && selectedAlert == None
      ensures !acknowledged ==> alerts == old(alerts) && selectedAlert == old(selectedAlert)
    {
      if acknowledged {
        alerts := WithoutAlert(alerts, alertId);
        selectedAlert := None;
      }
    }

    /** Leaving the page stops the alarm (the interval and socket are closed too). */
    method Teardown()
      modifies audio
      ensures audio.paused && audio.currentTime == 0 && audio.loop == old(audio.loop)
    {
      StopAlertSound();
    }
  }

  /** Stamping a list that no longer holds the id changes nothing. */
  lemma StampAfterComplete(alerts: seq<Alert>, id: int, now: string)
    ensures StampHandled(WithoutAlert(alerts, id), id, now) == WithoutAlert(alerts, id)
  {
    var w := WithoutAlert(alerts, id);
    var s := StampHandled(w, id, now);
    assert forall i :: 0 <= i < |s| ==> s[i] == w[i];
  }

  /**
   * A click on an alert's Complete button. The button sits inside the
   * alert's row and the click bubbles: the complete request goes out, then
   * the row's handler selects the alert, stops the alarm and sends its own
   * request. `completeFirst` says which response arrives first. A failed
   * completion still leaves the alert selected, and stamped when the
   * handled time was saved; a successful one removes it and clears the
   * selection, in either order.
   */
  method ClickComplete(monitor: Monitor, alert: Alert, completed: bool, handledSaved: bool, now: string,
                       completeFirst: bool)
    modifies monitor, monitor.audio
    ensures monitor.audio.paused && monitor.audio.currentTime == 0
    ensures completed ==>
      monitor.alerts == WithoutAlert(old(monitor.alerts), alert.alertId) && monitor.selectedAlert == None
    ensures !completed ==>
      monitor.selectedAlert == Some(alert) &&
      monitor.alerts == if handledSaved then StampHandled(old(monitor.alerts), alert.alertId, now)
                        else old(monitor.alerts)
  {
    monitor.HandleAlertClick(alert, false, now);
    if completeFirst {
      monitor.HandleCompleteAlert(alert.alertId, completed);
      if handledSaved {
        if completed {
          StampAfterComplete(old(monitor.alerts), alert.alertId, now);
        }
        monitor.OnHandledTimeSaved(alert.alertId, now);
      }
    } else {
      if handledSaved {
        monitor.OnHandledTimeSaved(alert.alertId, now);
        if completed {
          CompleteAfterStamp(old(monitor.alerts), alert.alertId, now);
        }
      }
      monitor.HandleCompleteAlert(alert.alertId, completed);
    }
  }

  /** The same alert pushed twice is listed twice. */
  method DuplicatePushKeepsBoth(monitor: Monitor, a: Alert)
    modifies monitor, monitor.audio
    ensures monitor.alerts == old(monitor.alerts) + [a, a]
  {
    monitor.OnSocketMessage(Some(a));
    monitor.OnSocketMessage(Some(a));
  }

  /**
   * A poll answered from a snapshot that predates a pushed alert removes
   * that alert from the list, while the alarm it started keeps sounding.
   */
  method PollDropsPushedAlert(monitor: Monitor, a: Alert, snapshot: seq<Alert>)
    requires a !in snapshot
    modifies monitor, monitor.audio
    ensures a !in monitor.alerts
    ensures monitor.audio.loop && !monitor.audio.paused
  {
    monitor.OnSocketMessage(Some(a));
    monitor.FetchUnhandledAlerts(Some(snapshot));
  }
}
