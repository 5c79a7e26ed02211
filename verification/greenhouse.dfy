/**
 The sync tick of the greenhouse twin (GreenhouseManager): the gate check,
 the "refreshing" announcements, the fetch's success and error callbacks,
 and the diff that turns a fetched controls snapshot into the toggle events
 that bring the store in line with it.
 */
module Greenhouse {
  import opened Store
  import opened EventCenter

  /** An opaque disruptive-event record of the fetch. */
  datatype Disruptive = Disruptive(payload: string)

  /** Everything one fetch of the current data returns. */
  datatype Current = Current(controls: Controls, measurements: Measurement, disruptive: seq<Disruptive>)

  /** The flags agree with the snapshot as far as the diff can tell: lights
      and valve equal, and some fan running exactly when the fans should run. */
  predicate Reconciled(c: Controls, st: Status) {
    st.lights == c.lightOn && (st.upperFan || st.lowerFan) == c.fanOn && st.valve == c.valveOpen
  }

  /** The lights toggle the diff publishes for flags `st`. */
  function LightsDiff(c: Controls, st: Status): (r: seq<Toggle>)
    ensures |r| <= 1
    ensures r == [] <==> c.lightOn == st.lights
    ensures Apply(st, r) == st.(lights := c.lightOn)
  {
    if c.lightOn && !st.lights then [TurnOnLights]
    else if !c.lightOn && st.lights then [TurnOffLights]
    else []
  }

  /** The fan toggles the diff publishes for flags `st`: both fans are
      switched together, and only when the fans are all on against the
      snapshot or all off against it. */
  function FansDiff(c: Controls, st: Status): (r: seq<Toggle>)
    ensures r == [] <==> (st.upperFan || st.lowerFan) == c.fanOn
    ensures r != [] ==> |r| == 2 && Apply(st, r) == st.(upperFan := c.fanOn, lowerFan := c.fanOn)
    ensures r != [] ==> HandlerFor(r[0]).Target() == UpperFan && HandlerFor(r[1]).Target() == LowerFan
    ensures r == [] ==> Apply(st, r) == st
  {
    if c.fanOn && !st.upperFan && !st.lowerFan then [TurnOnUpperFan, TurnOnLowerFan]
    else if !c.fanOn && (st.upperFan || st.lowerFan) then [TurnOffUpperFan, TurnOffLowerFan]
    else []
  }

  /** The valve toggle the diff publishes for flags `st`. */
  function ValveDiff(c: Controls, st: Status): (r: seq<Toggle>)
    ensures |r| <= 1
    ensures r == [] <==> c.valveOpen == st.valve
    ensures Apply(st, r) == st.(valve := c.valveOpen)
  {
    if c.valveOpen && !st.valve then [OpenValve]
    else if !c.valveOpen && st.valve then [CloseValve]
    else []
  }

  /** The toggles of one diff against flags `st` read once: lights, then
      fans, then valve. Handled by the wired store they reconcile the flags,
      and there are none exactly when the flags are already reconciled. */
  function Diff(c: Controls, st: Status): (r: seq<Toggle>)
    ensures Reconciled(c, Apply(st, r))
    ensures r == [] <==> Reconciled(c, st)
    ensures |r| <= 4
  {
    var l := LightsDiff(c, st);
    var f := FansDiff(c, st);
    var v := ValveDiff(c, st);
    assert f == FansDiff(c, Apply(st, l));
    assert v == ValveDiff(c, Apply(Apply(st, l), f));
    ApplyConcat(st, l, f);
    ApplyConcat(st, l + f, v);
    l + f + v
  }

  /** A second sync against the same snapshot publishes no toggle. */
  lemma DiffSettles(c: Controls, st: Status)
    ensures Diff(c, Apply(st, Diff(c, st))) == []
  {
  }

  /** With the fans split (one on, one off) and the snapshot asking for fans
      on, the diff switches no fan and the split survives the sync. */
  lemma SplitFansStay(c: Controls, st: Status)
    requires c.fanOn && st.upperFan != st.lowerFan
    ensures FansDiff(c, st) == []
    ensures Apply(st, Diff(c, st)).upperFan == st.upperFan
    ensures Apply(st, Diff(c, st)).lowerFan == st.lowerFan
  {
    var l := LightsDiff(c, st);
    var v := ValveDiff(c, st);
    ApplyConcat(st, l, v);
    assert l + [] + v == l + v;
  }

  /** What a diff that reads the store live does: the toggles it published
      and the flags it left. */
  datatype Outcome = Outcome(toggles: seq<Toggle>, after: Status)

  /** The diff as `GreenhouseManager.ProcessControlsData` runs it on lists `m`: the lights are compared
      with the flags first read, the fans with the flags after the lights
      toggle was delivered, and the valve with the flags after the fan
      toggles were delivered. */
  function ProcessControls(c: Controls, st: Status, m: Lists): Outcome {
    var l := LightsDiff(c, st);
    var st1 := DeliverAll(st, m, l);
    var f := FansDiff(c, st1);
    var st2 := DeliverAll(st1, m, f);
    var v := ValveDiff(c, st2);
    Outcome(l + f + v, DeliverAll(st2, m, v))
  }

  /** With the store wired, reading live is the same as reading once:
      `GreenhouseManager.ProcessControlsData` publishes `Diff` and the flags end reconciled with the snapshot. */
  lemma WiredProcessIsDiff(c: Controls, st: Status, m: Lists)
    requires Wired(m)
    ensures ProcessControls(c, st, m) == Outcome(Diff(c, st), Apply(st, Diff(c, st)))
    ensures Reconciled(c, ProcessControls(c, st, m).after)
  {
    var l := LightsDiff(c, st);
    DeliverAllWired(st, m, l);
    var st1 := Apply(st, l);
    var f := FansDiff(c, st1);
    assert f == FansDiff(c, st);
    DeliverAllWired(st1, m, f);
    var st2 := Apply(st1, f);
    var v := ValveDiff(c, st2);
    assert v == ValveDiff(c, st);
    DeliverAllWired(st2, m, v);
    ApplyConcat(st, l, f);
    ApplyConcat(st, l + f, v);
  }

  /** With the store unhooked from the bus,
      `GreenhouseManager.ProcessControlsData` still publishes the
      toggles of `Diff`, but the flags stay as they were, so the next sync
      publishes them again. */
  lemma UnhookedProcessRepeats(c: Controls, st: Status, m: Lists)
    requires Respects(m) && Unhooked(m)
    ensures ProcessControls(c, st, m) == Outcome(Diff(c, st), st)
    ensures ProcessControls(c, ProcessControls(c, st, m).after, m) == ProcessControls(c, st, m)
  {
    DeliverAllUnhooked(st, m, LightsDiff(c, st));
    DeliverAllUnhooked(st, m, FansDiff(c, st));
    DeliverAllUnhooked(st, m, ValveDiff(c, st));
  }

  /** The toggles as controls-module events. */
  function Toggles(ts: seq<Toggle>): (r: seq<Event>)
    ensures |r| == |ts|
  {
    seq(|ts|, i requires 0 <= i < |ts| => Toggled(ts[i]))
  }

  /** Controls-module events as journal notices. */
  function Notices(es: seq<Event>): (r: seq<Notice>)
    ensures |r| == |es|
  {
    seq(|es|, i requires 0 <= i < |es| => ControlsNotice(es[i]))
  }

  lemma TogglesConcat(a: seq<Toggle>, b: seq<Toggle>)
    ensures Toggles(a + b) == Toggles(a) + Toggles(b)
  {
    assert forall i :: 0 <= i < |a| + |b| ==> Toggles(a + b)[i] == (Toggles(a) + Toggles(b))[i];
  }

  lemma NoticesConcat(a: seq<Event>, b: seq<Event>)
    ensures Notices(a + b) == Notices(a) + Notices(b)
  {
    assert forall i :: 0 <= i < |a| + |b| ==> Notices(a + b)[i] == (Notices(a) + Notices(b))[i];
  }

  /** The rounds of publishing `es` in order on lists `m`: for each event,
      the invocations of its channel's subscribers. */
  function Rounds(m: Lists, es: seq<Event>): (r: seq<seq<Delivery>>)
    ensures |r| == |es|
  {
    seq(|es|, i requires 0 <= i < |es| => Deliveries(m.Of(ChannelOf(es[i])), es[i]))
  }

  lemma RoundsConcat(m: Lists, a: seq<Event>, b: seq<Event>)
    ensures Rounds(m, a + b) == Rounds(m, a) + Rounds(m, b)
  {
    assert forall i :: 0 <= i < |a| + |b| ==> Rounds(m, a + b)[i] == (Rounds(m, a) + Rounds(m, b))[i];
  }

  /** Publishing a single event `e`. */
  lemma OneEvent(m: Lists, e: Event)
    ensures Notices([e]) == [ControlsNotice(e)]
    ensures Rounds(m, [e]) == [Deliveries(m.Of(ChannelOf(e)), e)]
  {
  }

  /** One more publish of `e` on lists `m` adds its round at the end. */
  lemma AppendRound(d0: seq<seq<Delivery>>, m: Lists, es: seq<Event>, e: Event)
    ensures d0 + Rounds(m, es) + [Deliveries(m.Of(ChannelOf(e)), e)] == d0 + Rounds(m, es + [e])
  {
    RoundsConcat(m, es, [e]);
    OneEvent(m, e);
  }

  /** Publishing a single toggle `t`, as the lights and valve steps do. */
  lemma OneToggle(st: Status, m: Lists, t: Toggle)
    ensures Notices(Toggles([t])) == [ControlsNotice(Toggled(t))]
    ensures Rounds(m, Toggles([t])) == [Deliveries(m.Of(ToggleChannel(t)), Toggled(t))]
    ensures DeliverAll(st, m, [t]) == Effect(st, m.Of(ToggleChannel(t)))
  {
    assert Toggles([t]) == [Toggled(t)];
    assert [t][1..] == [];
  }

  /** Publishing two toggles `a` then `b`, as the fans step does. */
  lemma TwoToggles(st: Status, m: Lists, a: Toggle, b: Toggle)
    ensures Notices(Toggles([a, b])) == [ControlsNotice(Toggled(a)), ControlsNotice(Toggled(b))]
    ensures Rounds(m, Toggles([a, b])) ==
      [Deliveries(m.Of(ToggleChannel(a)), Toggled(a)), Deliveries(m.Of(ToggleChannel(b)), Toggled(b))]
    ensures DeliverAll(st, m, [a, b]) == Effect(Effect(st, m.Of(ToggleChannel(a))), m.Of(ToggleChannel(b)))
  {
    assert Toggles([a, b]) == [Toggled(a), Toggled(b)];
    var st1 := Effect(st, m.Of(ToggleChannel(a)));
    assert [a, b][1..] == [b];
    assert DeliverAll(st, m, [a, b]) == DeliverAll(st1, m, [b]);
    OneToggle(st1, m, b);
  }

  /** The journal after the snapshot and the three steps of the diff. */
  lemma ComposeNotices(n0: seq<Notice>, c: Controls, l: seq<Toggle>, f: seq<Toggle>, v: seq<Toggle>)
    ensures n0 + [ControlsNotice(ControlsChanged(c))] + Notices(Toggles(l)) + Notices(Toggles(f)) + Notices(Toggles(v))
      == n0 + Notices([ControlsChanged(c)] + Toggles(l + f + v))
  {
    TogglesConcat(l, f);
    TogglesConcat(l + f, v);
    NoticesConcat([ControlsChanged(c)], Toggles(l + f + v));
    NoticesConcat(Toggles(l), Toggles(f));
    NoticesConcat(Toggles(l + f), Toggles(v));
    assert Notices([ControlsChanged(c)]) == [ControlsNotice(ControlsChanged(c))];
  }

  /** The rounds after the snapshot and the three steps of the diff. */
  lemma ComposeRounds(d0: seq<seq<Delivery>>, m: Lists, c: Controls, l: seq<Toggle>, f: seq<Toggle>, v: seq<Toggle>)
    ensures d0 + Rounds(m, [ControlsChanged(c)]) + Rounds(m, Toggles(l)) + Rounds(m, Toggles(f)) + Rounds(m, Toggles(v))
      == d0 + Rounds(m, [ControlsChanged(c)] + Toggles(l + f + v))
  {
    TogglesConcat(l, f);
    TogglesConcat(l + f, v);
    RoundsConcat(m, [ControlsChanged(c)], Toggles(l + f + v));
    RoundsConcat(m, Toggles(l), Toggles(f));
    RoundsConcat(m, Toggles(l + f), Toggles(v));
  }

  /** The refreshing announcement: on the controls module, then on the
      measurements module. */
  function Refreshing(b: bool): seq<Notice> {
    [ControlsNotice(RefreshingStatusChange(b)), MeasurementsNotice(MeasurementsRefreshingStatusChange(b))]
  }

  /** The controls-module events of a successful sync that published `ts`. */
  function SyncEvents(c: Controls, ts: seq<Toggle>): seq<Event> {
    [ControlsChanged(c)] + Toggles(ts) + [RefreshingStatusChange(false)]
  }

  /** The journal of a successful sync that published `ts`, in publication
      order: the snapshot, the toggles, the measurements, then refreshing
      cleared on both modules. */
  function SyncNotices(cur: Current, ts: seq<Toggle>): seq<Notice> {
    Notices([ControlsChanged(cur.controls)] + Toggles(ts))
      + [MeasurementsNotice(MeasurementsChanged(cur.measurements))]
      + Refreshing(false)
  }

  /** The journal of a successful sync, built one publish at a time. */
  lemma SyncNoticesInOrder(n0: seq<Notice>, cur: Current, ts: seq<Toggle>)
    ensures n0 + Notices([ControlsChanged(cur.controls)] + Toggles(ts))
      + [MeasurementsNotice(MeasurementsChanged(cur.measurements))]
      + [ControlsNotice(RefreshingStatusChange(false))]
      + [MeasurementsNotice(MeasurementsRefreshingStatusChange(false))]
      == n0 + SyncNotices(cur, ts)
  {
  }

  /** The manager of the sync tick and the objects it talks to. */
  class GreenhouseManager {
    const settings: GlobalSettings
    const controls: ControlsEventsModule
    const measurements: MeasurementsEventsModule
    const journal: Journal

    /** One store, whose handlers the controls module may invoke, and one
        journal shared by both modules. */
    ghost predicate Valid()
      reads controls
    {
      controls.store == settings && controls.journal == journal
      && measurements.journal == journal && controls.Valid()
    }

    constructor (settings: GlobalSettings, controls: ControlsEventsModule,
                 measurements: MeasurementsEventsModule, journal: Journal)
      requires controls.store == settings && controls.journal == journal
      requires measurements.journal == journal && controls.Valid()
      ensures Valid()
      ensures this.settings == settings && this.controls == controls
      ensures this.measurements == measurements && this.journal == journal
    {
      this.settings := settings;
      this.controls := controls;
      this.measurements := measurements;
      this.journal := journal;
    }

    /** The tick (`InitializeAllCurrentData`): blocked, it does nothing;
        otherwise it announces refreshing and issues the fetch, whose answer
        arrives later as `OnSuccess` or `OnError`. */
    method InitializeAllCurrentData() returns (fetchIssued: bool)
      requires Valid()
      modifies journal, controls`rounds
      modifies settings`lightsStatus, settings`upperFanStatus, settings`lowerFanStatus, settings`valveStatus
      ensures Valid()
      ensures fetchIssued == !settings.blockApiCalls
      ensures settings.State() == old(settings.State())
      ensures journal.notices == old(journal.notices) + if fetchIssued then Refreshing(true) else []
      ensures controls.rounds == old(controls.rounds)
        + if fetchIssued then Rounds(controls.subscribers, [RefreshingStatusChange(true)]) else []
    {
      if settings.blockApiCalls {
        return false;
      }
      controls.Publish(RefreshingStatusChange(true));
      measurements.Publish(MeasurementsRefreshingStatusChange(true));
      OneEvent(controls.subscribers, RefreshingStatusChange(true));
      fetchIssued := true;
    }

    /** The fetch's success callback: blocked by now, it does nothing at all,
        not even clear refreshing; otherwise it processes the controls, the
        measurements and the disruptive data, then clears refreshing. */
    method OnSuccess(current: Current)
      requires Valid()
      modifies journal, controls`rounds
      modifies settings`lightsStatus, settings`upperFanStatus, settings`lowerFanStatus, settings`valveStatus
      ensures Valid()
      ensures old(settings.blockApiCalls) ==>
        journal.notices == old(journal.notices) && settings.State() == old(settings.State())
        && controls.rounds == old(controls.rounds)
      ensures !old(settings.blockApiCalls) ==>
        var o := ProcessControls(current.controls, old(settings.State()), controls.subscribers);
        journal.notices == old(journal.notices) + SyncNotices(current, o.toggles)
        && controls.rounds == old(controls.rounds) + Rounds(controls.subscribers, SyncEvents(current.controls, o.toggles))
        && settings.State() == o.after
    {
      if settings.blockApiCalls {
        return;
      }
      ghost var m := controls.subscribers;
      ghost var o := ProcessControls(current.controls, settings.State(), m);
      ghost var n0 := journal.notices;
      ghost var d0 := controls.rounds;
      ghost var es := [ControlsChanged(current.controls)] + Toggles(o.toggles);
      ProcessControlsData(current.controls);
      ghost var n1 := journal.notices;
      assert n1 == n0 + Notices(es);
      ProcessMeasurementsData(current.measurements);
      ProcessDisruptiveData(current.disruptive);
      controls.Publish(RefreshingStatusChange(false));
      measurements.Publish(MeasurementsRefreshingStatusChange(false));
      SyncNoticesInOrder(n0, current, o.toggles);
      AppendRound(d0, m, es, RefreshingStatusChange(false));
    }

    /** The fetch's error callback: refreshing is cleared on both modules and
        nothing else happens. */
    method OnError(error: string)
      requires Valid()
      modifies journal, controls`rounds
      modifies settings`lightsStatus, settings`upperFanStatus, settings`lowerFanStatus, settings`valveStatus
      ensures Valid()
      ensures settings.State() == old(settings.State())
      ensures journal.notices == old(journal.notices) + Refreshing(false)
      ensures controls.rounds == old(controls.rounds) + Rounds(controls.subscribers, [RefreshingStatusChange(false)])
    {
      controls.Publish(RefreshingStatusChange(false));
      measurements.Publish(MeasurementsRefreshingStatusChange(false));
      OneEvent(controls.subscribers, RefreshingStatusChange(false));
    }

    /** `ProcessControlsData`: the snapshot goes out first, then the lights,
        fans and valve comparisons in turn, each reading the store as the
        toggles before it left it. */
    method ProcessControlsData(c: Controls)
      requires Valid()
      modifies journal, controls`rounds
      modifies settings`lightsStatus, settings`upperFanStatus, settings`lowerFanStatus, settings`valveStatus
      ensures Valid()
      ensures var o := ProcessControls(c, old(settings.State()), controls.subscribers);
        journal.notices == old(journal.notices) + Notices([ControlsChanged(c)] + Toggles(o.toggles))
        && controls.rounds == old(controls.rounds) + Rounds(controls.subscribers, [ControlsChanged(c)] + Toggles(o.toggles))
        && settings.State() == o.after
    {
      ghost var m := controls.subscribers;
      ghost var st := settings.State();
      ghost var n0 := journal.notices;
      ghost var d0 := controls.rounds;
      controls.Publish(ControlsChanged(c));
      OneEvent(m, ControlsChanged(c));
      ghost var l := LightsDiff(c, st);
      SyncLights(c);
      ghost var f := FansDiff(c, settings.State());
      SyncFans(c);
      ghost var v := ValveDiff(c, settings.State());
      SyncValve(c);
      ComposeNotices(n0, c, l, f, v);
      ComposeRounds(d0, m, c, l, f, v);
    }

    /** The lights comparison of `ProcessControlsData`. */
    method SyncLights(c: Controls)
      requires Valid()
      modifies journal, controls`rounds
      modifies settings`lightsStatus, settings`upperFanStatus, settings`lowerFanStatus, settings`valveStatus
      ensures Valid()
      ensures var ts := LightsDiff(c, old(settings.State()));
        settings.State() == DeliverAll(old(settings.State()), controls.subscribers, ts)
        && journal.notices == old(journal.notices) + Notices(Toggles(ts))
        && controls.rounds == old(controls.rounds) + Rounds(controls.subscribers, Toggles(ts))
    {
      ghost var st := settings.State();
      if c.lightOn && !settings.lightsStatus {
        controls.Publish(Toggled(TurnOnLights));
        OneToggle(st, controls.subscribers, TurnOnLights);
      } else if !c.lightOn && settings.lightsStatus {
        controls.Publish(Toggled(TurnOffLights));
        OneToggle(st, controls.subscribers, TurnOffLights);
      }
    }

    /** The fans comparison of `ProcessControlsData`: both fans are switched together. */
    method SyncFans(c: Controls)
      requires Valid()
      modifies journal, controls`rounds
      modifies settings`lightsStatus, settings`upperFanStatus, settings`lowerFanStatus, settings`valveStatus
      ensures Valid()
      ensures var ts := FansDiff(c, old(settings.State()));
        settings.State() == DeliverAll(old(settings.State()), controls.subscribers, ts)
        && journal.notices == old(journal.notices) + Notices(Toggles(ts))
        && controls.rounds == old(controls.rounds) + Rounds(controls.subscribers, Toggles(ts))
    {
      ghost var st := settings.State();
      if c.fanOn && !settings.upperFanStatus && !settings.lowerFanStatus {
        controls.Publish(Toggled(TurnOnUpperFan));
        controls.Publish(Toggled(TurnOnLowerFan));
        TwoToggles(st, controls.subscribers, TurnOnUpperFan, TurnOnLowerFan);
      } else if !c.fanOn && (settings.upperFanStatus || settings.lowerFanStatus) {
        controls.Publish(Toggled(TurnOffUpperFan));
        controls.Publish(Toggled(TurnOffLowerFan));
        TwoToggles(st, controls.subscribers, TurnOffUpperFan, TurnOffLowerFan);
      }
    }

    /** The valve comparison of `ProcessControlsData`. */
    method SyncValve(c: Controls)
      requires Valid()
      modifies journal, controls`rounds
      modifies settings`lightsStatus, settings`upperFanStatus, settings`lowerFanStatus, settings`valveStatus
      ensures Valid()
      ensures var ts := ValveDiff(c, old(settings.State()));
        settings.State() == DeliverAll(old(settings.State()), controls.subscribers, ts)
        && journal.notices == old(journal.notices) + Notices(Toggles(ts))
        && controls.rounds == old(controls.rounds) + Rounds(controls.subscribers, Toggles(ts))
    {
      ghost var st := settings.State();
      if c.valveOpen && !settings.valveStatus {
        controls.Publish(Toggled(OpenValve));
        OneToggle(st, controls.subscribers, OpenValve);
      } else if !c.valveOpen && settings.valveStatus {
        controls.Publish(Toggled(CloseValve));
        OneToggle(st, controls.subscribers, CloseValve);
      }
    }

    /** `ProcessMeasurementsData`: the measurements go out unchanged. */
    method ProcessMeasurementsData(data: Measurement)
      requires Valid()
      modifies journal
      ensures journal.notices == old(journal.notices) + [MeasurementsNotice(MeasurementsChanged(data))]
    {
      measurements.Publish(MeasurementsChanged(data));
    }

    /** `ProcessDisruptiveData`: the disruptive data is ignored. */
    method ProcessDisruptiveData(disruptive: seq<Disruptive>)
      ensures unchanged(journal, settings, controls)
    {
    }
  }
}
