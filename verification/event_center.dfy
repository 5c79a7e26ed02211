/**
 The typed event bus (EventCenter.Controls, with the part of
 EventCenter.Measurements the sync tick uses): channels, their subscriber
 lists, synchronous in-order fan-out, and the store's (un)subscription.
 */
module EventCenter {
  import opened Store

  /** The controls snapshot the remote data source reports. */
  datatype Controls = Controls(lightOn: bool, fanOn: bool, valveOpen: bool)

  /** The eight per-actuator, per-direction control events (no payload). */
  datatype Toggle =
    | TurnOnLights | TurnOffLights
    | TurnOnUpperFan | TurnOffUpperFan
    | TurnOnLowerFan | TurnOffLowerFan
    | OpenValve | CloseValve

  /** The ten channels of the controls module. */
  datatype Channel =
    | ToggleChannel(toggle: Toggle)
    | ControlsChangedChannel
    | RefreshingStatusChannel

  /** A publication on the controls module, with its payload. */
  datatype Event =
    | Toggled(toggle: Toggle)
    | ControlsChanged(controls: Controls)
    | RefreshingStatusChange(refreshing: bool)

  function ChannelOf(e: Event): Channel {
    match e
    case Toggled(t) => ToggleChannel(t)
    case ControlsChanged(_) => ControlsChangedChannel
    case RefreshingStatusChange(_) => RefreshingStatusChannel
  }

  /** The store handler that the store's enable hook puts on a toggle's channel. */
  function HandlerFor(t: Toggle): Handler {
    match t
    case TurnOnLights => SetLightingOn
    case TurnOffLights => SetLightingOff
    case TurnOnUpperFan => SetUpperFanOn
    case TurnOffUpperFan => SetUpperFanOff
    case TurnOnLowerFan => SetLowerFanOn
    case TurnOffLowerFan => SetLowerFanOff
    case OpenValve => SetValveOpen
    case CloseValve => SetValveClose
  }

  /** A subscriber: one of the store's handlers, or a presentation adapter
      whose effects lie outside the core and are seen only as deliveries. */
  datatype Subscriber = StoreHandler(handler: Handler) | Adapter(id: nat)

  /** The store's handlers are private and only its enable hook subscribes
      them, each to its own toggle's channel. */
  predicate Compatible(c: Channel, s: Subscriber) {
    s.StoreHandler? ==> c.ToggleChannel? && HandlerFor(c.toggle) == s.handler
  }

  /** One subscriber invocation during a publish. */
  datatype Delivery = Delivery(subscriber: Subscriber, event: Event)

  /** An opaque measurements payload, passed through verbatim. */
  datatype Measurement = Measurement(payload: string)

  /** A publication on the measurements module. */
  datatype MeasurementsEvent =
    | MeasurementsChanged(data: Measurement)
    | MeasurementsRefreshingStatusChange(refreshing: bool)

  /** A publication on either module, as recorded in the shared journal. */
  datatype Notice = ControlsNotice(event: Event) | MeasurementsNotice(measurementsEvent: MeasurementsEvent)

  /** The ten subscriber lists, one per event field of the controls module,
      each in subscription order; a null event field is an empty list. */
  datatype Lists = Lists(
    onTurnOnLights: seq<Subscriber>, onTurnOffLights: seq<Subscriber>,
    onTurnOnUpperFan: seq<Subscriber>, onTurnOffUpperFan: seq<Subscriber>,
    onTurnOnLowerFan: seq<Subscriber>, onTurnOffLowerFan: seq<Subscriber>,
    onValveOpen: seq<Subscriber>, onValveClose: seq<Subscriber>,
    onControlsChanged: seq<Subscriber>, onControlsRefreshingStatusChange: seq<Subscriber>)
  {
    /** The list of channel `c`. */
    function Of(c: Channel): seq<Subscriber> {
      match c
      case ToggleChannel(TurnOnLights) => onTurnOnLights
      case ToggleChannel(TurnOffLights) => onTurnOffLights
      case ToggleChannel(TurnOnUpperFan) => onTurnOnUpperFan
      case ToggleChannel(TurnOffUpperFan) => onTurnOffUpperFan
      case ToggleChannel(TurnOnLowerFan) => onTurnOnLowerFan
      case ToggleChannel(TurnOffLowerFan) => onTurnOffLowerFan
      case ToggleChannel(OpenValve) => onValveOpen
      case ToggleChannel(CloseValve) => onValveClose
      case ControlsChangedChannel => onControlsChanged
      case RefreshingStatusChannel => onControlsRefreshingStatusChange
    }

    /** These lists with the list of channel `c` replaced by `subs`. */
    function With(c: Channel, subs: seq<Subscriber>): Lists {
      match c
      case ToggleChannel(TurnOnLights) => this.(onTurnOnLights := subs)
      case ToggleChannel(TurnOffLights) => this.(onTurnOffLights := subs)
      case ToggleChannel(TurnOnUpperFan) => this.(onTurnOnUpperFan := subs)
      case ToggleChannel(TurnOffUpperFan) => this.(onTurnOffUpperFan := subs)
      case ToggleChannel(TurnOnLowerFan) => this.(onTurnOnLowerFan := subs)
      case ToggleChannel(TurnOffLowerFan) => this.(onTurnOffLowerFan := subs)
      case ToggleChannel(OpenValve) => this.(onValveOpen := subs)
      case ToggleChannel(CloseValve) => this.(onValveClose := subs)
      case ControlsChangedChannel => this.(onControlsChanged := subs)
      case RefreshingStatusChannel => this.(onControlsRefreshingStatusChange := subs)
    }
  }

  /** All ten event fields null. */
  const NoSubscribers := Lists([], [], [], [], [], [], [], [], [], [])

  /** The invocations of one publish of `e`: every subscriber, in list order,
      receives `e` itself. */
  function Deliveries(subs: seq<Subscriber>, e: Event): seq<Delivery> {
    if subs == [] then [] else Deliveries(subs[..|subs| - 1], e) + [Delivery(subs[|subs| - 1], e)]
  }

  /** Every subscriber is invoked once, in list order, with the event's own
      payload. */
  lemma {:induction false} DeliveriesInOrder(subs: seq<Subscriber>, e: Event)
    ensures |Deliveries(subs, e)| == |subs|
    ensures forall i :: 0 <= i < |subs| ==> Deliveries(subs, e)[i] == Delivery(subs[i], e)
  {
    if subs != [] {
      DeliveriesInOrder(subs[..|subs| - 1], e);
    }
  }

  /** The store flags after invoking `subs` in order on flags `st`. */
  function Effect(st: Status, subs: seq<Subscriber>): Status {
    if subs == [] then st
    else
      var before := Effect(st, subs[..|subs| - 1]);
      match subs[|subs| - 1]
      case StoreHandler(h) => Handle(before, h)
      case Adapter(_) => before
  }

  /** Subscribers that are all adapters leave the store alone. */
  lemma {:induction false} EffectOfAdapters(st: Status, subs: seq<Subscriber>)
    requires forall s :: s in subs ==> s.Adapter?
    ensures Effect(st, subs) == st
  {
    if subs != [] {
      assert subs[|subs| - 1] in subs;
      assert forall s :: s in subs[..|subs| - 1] ==> s in subs;
      EffectOfAdapters(st, subs[..|subs| - 1]);
    }
  }

  /** True when `h` is the only store handler among `subs`. */
  predicate OnlyHandler(subs: seq<Subscriber>, h: Handler) {
    forall s :: s in subs && s.StoreHandler? ==> s.handler == h
  }

  /** If `h` is the only store handler on a list, invoking the list runs `h`
      exactly when it is there; repetitions do not matter. */
  lemma {:induction false} EffectOfOneHandler(st: Status, subs: seq<Subscriber>, h: Handler)
    requires OnlyHandler(subs, h)
    ensures Effect(st, subs) == if StoreHandler(h) in subs then Handle(st, h) else st
  {
    if subs != [] {
      var init := subs[..|subs| - 1];
      assert subs == init + [subs[|subs| - 1]];
      assert forall s :: s in init ==> s in subs;
      EffectOfOneHandler(st, init, h);
      HandleIdempotent(st, h);
    }
  }

  /** Every list holds only subscribers its channel admits. */
  ghost predicate Respects(m: Lists) {
    forall c, s :: s in m.Of(c) ==> Compatible(c, s)
  }

  /** Replacing one list changes what that channel holds and no other. */
  lemma WithOf(m: Lists, c: Channel, subs: seq<Subscriber>, d: Channel)
    ensures m.With(c, subs).Of(d) == if c == d then subs else m.Of(d)
  {
  }

  /** Replacing one list by an admissible one keeps all lists admissible. */
  lemma RespectsWith(m: Lists, c: Channel, subs: seq<Subscriber>)
    requires Respects(m)
    requires forall s :: s in subs ==> Compatible(c, s)
    ensures Respects(m.With(c, subs))
  {
    forall d, s | s in m.With(c, subs).Of(d)
      ensures Compatible(d, s)
    {
      WithOf(m, c, subs, d);
    }
  }

  /** On admissible lists, a toggle's channel runs its own handler exactly
      when that handler is subscribed there, and otherwise leaves the store. */
  lemma SubscribedToggle(st: Status, m: Lists, t: Toggle)
    requires Respects(m)
    ensures Effect(st, m.Of(ToggleChannel(t))) ==
      if StoreHandler(HandlerFor(t)) in m.Of(ToggleChannel(t)) then Handle(st, HandlerFor(t)) else st
  {
    EffectOfOneHandler(st, m.Of(ToggleChannel(t)), HandlerFor(t));
  }

  /** The subscriber lists are wired as the store's enable hook leaves them:
      each toggle channel carries its own store handler and no other one. */
  ghost predicate Wired(m: Lists) {
    forall t: Toggle ::
      StoreHandler(HandlerFor(t)) in m.Of(ToggleChannel(t))
      && OnlyHandler(m.Of(ToggleChannel(t)), HandlerFor(t))
  }

  /** With the store wired, publishing a toggle runs exactly its handler. */
  lemma WiredToggle(st: Status, m: Lists, t: Toggle)
    requires Wired(m)
    ensures Effect(st, m.Of(ToggleChannel(t))) == Handle(st, HandlerFor(t))
  {
    EffectOfOneHandler(st, m.Of(ToggleChannel(t)), HandlerFor(t));
  }

  /** The flags after the wired store has handled the toggles `ts` in order. */
  function Apply(st: Status, ts: seq<Toggle>): Status
    decreases ts
  {
    if ts == [] then st else Apply(Handle(st, HandlerFor(ts[0])), ts[1..])
  }

  lemma {:induction false} ApplyConcat(st: Status, a: seq<Toggle>, b: seq<Toggle>)
    ensures Apply(st, a + b) == Apply(Apply(st, a), b)
    decreases a
  {
    if a != [] {
      assert (a + b)[1..] == a[1..] + b;
      ApplyConcat(Handle(st, HandlerFor(a[0])), a[1..], b);
    } else {
      assert a + b == b;
    }
  }

  /** The flags after the toggles `ts` are published in order on lists `m`,
      whatever the lists hold. */
  function DeliverAll(st: Status, m: Lists, ts: seq<Toggle>): Status
    decreases ts
  {
    if ts == [] then st else DeliverAll(Effect(st, m.Of(ToggleChannel(ts[0]))), m, ts[1..])
  }

  /** On wired lists, publishing toggles does what the store's handlers do. */
  lemma {:induction false} DeliverAllWired(st: Status, m: Lists, ts: seq<Toggle>)
    requires Wired(m)
    ensures DeliverAll(st, m, ts) == Apply(st, ts)
    decreases ts
  {
    if ts != [] {
      WiredToggle(st, m, ts[0]);
      DeliverAllWired(Handle(st, HandlerFor(ts[0])), m, ts[1..]);
    }
  }

  /** No toggle channel carries its store handler, as when every enable has
      been matched by a disable. */
  ghost predicate Unhooked(m: Lists) {
    forall t: Toggle :: StoreHandler(HandlerFor(t)) !in m.Of(ToggleChannel(t))
  }

  /** With the store unhooked, publishing toggles leaves the flags alone. */
  lemma {:induction false} DeliverAllUnhooked(st: Status, m: Lists, ts: seq<Toggle>)
    requires Respects(m) && Unhooked(m)
    ensures DeliverAll(st, m, ts) == st
    decreases ts
  {
    if ts != [] {
      SubscribedToggle(st, m, ts[0]);
      DeliverAllUnhooked(st, m, ts[1..]);
    }
  }

  /** A multicast delegate minus one delegate: the LAST occurrence of `x` is
      taken out; without one, the list is returned as it was. */
  function RemoveLast(xs: seq<Subscriber>, x: Subscriber): seq<Subscriber> {
    if xs == [] then []
    else if xs[|xs| - 1] == x then xs[..|xs| - 1]
    else RemoveLast(xs[..|xs| - 1], x) + [xs[|xs| - 1]]
  }

  /** Removing a subscriber that is not there changes nothing; removing one
      that is there takes out exactly one copy of it. */
  lemma {:induction false} RemoveLastSpec(xs: seq<Subscriber>, x: Subscriber)
    ensures x !in xs ==> RemoveLast(xs, x) == xs
    ensures x in xs ==> |RemoveLast(xs, x)| == |xs| - 1
    ensures multiset(RemoveLast(xs, x)) == multiset(xs) - multiset{x}
    ensures forall s :: s in RemoveLast(xs, x) ==> s in xs
  {
    if xs != [] {
      var init := xs[..|xs| - 1];
      assert xs == init + [xs[|xs| - 1]];
      RemoveLastSpec(init, x);
    }
  }

  /** Unsubscribing removes the subscriber's own entry even when others
      subscribed to the same channel after it. */
  lemma {:induction false} RemoveLastAfterOthers(xs: seq<Subscriber>, x: Subscriber, ys: seq<Subscriber>)
    requires x !in ys
    ensures RemoveLast(xs + [x] + ys, x) == xs + ys
  {
    if ys == [] {
      assert xs + [x] + ys == xs + [x];
      assert (xs + [x])[..|xs|] == xs;
    } else {
      var zs := xs + [x] + ys;
      var init := ys[..|ys| - 1];
      assert ys == init + [ys[|ys| - 1]];
      assert zs[..|zs| - 1] == xs + [x] + init;
      RemoveLastAfterOthers(xs, x, init);
      assert (xs + init) + [ys[|ys| - 1]] == xs + ys;
    }
  }

  /** The lists after `+=` of `s` on channel `c`. */
  function Subscribed(m: Lists, c: Channel, s: Subscriber): (r: Lists)
  {
    m.With(c, m.Of(c) + [s])
  }

  /** The lists after `-=` of `s` on channel `c`. */
  function Unsubscribed(m: Lists, c: Channel, s: Subscriber): (r: Lists)
  {
    m.With(c, RemoveLast(m.Of(c), s))
  }

  /** The lists after the store's enable hook, in its subscription order. */
  function EnableStore(m: Lists): Lists {
    var m1 := Subscribed(m, ToggleChannel(TurnOnLights), StoreHandler(SetLightingOn));
    var m2 := Subscribed(m1, ToggleChannel(TurnOffLights), StoreHandler(SetLightingOff));
    var m3 := Subscribed(m2, ToggleChannel(TurnOnUpperFan), StoreHandler(SetUpperFanOn));
    var m4 := Subscribed(m3, ToggleChannel(TurnOffUpperFan), StoreHandler(SetUpperFanOff));
    var m5 := Subscribed(m4, ToggleChannel(TurnOnLowerFan), StoreHandler(SetLowerFanOn));
    var m6 := Subscribed(m5, ToggleChannel(TurnOffLowerFan), StoreHandler(SetLowerFanOff));
    var m7 := Subscribed(m6, ToggleChannel(OpenValve), StoreHandler(SetValveOpen));
    Subscribed(m7, ToggleChannel(CloseValve), StoreHandler(SetValveClose))
  }

  /** The lists after the store's disable hook, in its unsubscription order. */
  function DisableStore(m: Lists): Lists {
    var m1 := Unsubscribed(m, ToggleChannel(TurnOnLights), StoreHandler(SetLightingOn));
    var m2 := Unsubscribed(m1, ToggleChannel(TurnOffLights), StoreHandler(SetLightingOff));
    var m3 := Unsubscribed(m2, ToggleChannel(TurnOnUpperFan), StoreHandler(SetUpperFanOn));
    var m4 := Unsubscribed(m3, ToggleChannel(TurnOffUpperFan), StoreHandler(SetUpperFanOff));
    var m5 := Unsubscribed(m4, ToggleChannel(TurnOnLowerFan), StoreHandler(SetLowerFanOn));
    var m6 := Unsubscribed(m5, ToggleChannel(TurnOffLowerFan), StoreHandler(SetLowerFanOff));
    var m7 := Unsubscribed(m6, ToggleChannel(OpenValve), StoreHandler(SetValveOpen));
    Unsubscribed(m7, ToggleChannel(CloseValve), StoreHandler(SetValveClose))
  }

  /** Enabling appends each toggle's own handler to that toggle's list and
      leaves the other two channels alone. */
  lemma EnableStoreListeners(m: Lists)
    ensures forall t :: EnableStore(m).Of(ToggleChannel(t)) == m.Of(ToggleChannel(t)) + [StoreHandler(HandlerFor(t))]
    ensures EnableStore(m).Of(ControlsChangedChannel) == m.Of(ControlsChangedChannel)
    ensures EnableStore(m).Of(RefreshingStatusChannel) == m.Of(RefreshingStatusChannel)
  {
    forall t
      ensures EnableStore(m).Of(ToggleChannel(t)) == m.Of(ToggleChannel(t)) + [StoreHandler(HandlerFor(t))]
    {
      match t
      case TurnOnLights =>
      case TurnOffLights =>
      case TurnOnUpperFan =>
      case TurnOffUpperFan =>
      case TurnOnLowerFan =>
      case TurnOffLowerFan =>
      case OpenValve =>
      case CloseValve =>
    }
  }

  /** The disable hook field by field. */
  lemma DisableStoreFields(m: Lists)
    ensures DisableStore(m) == Lists(
      RemoveLast(m.onTurnOnLights, StoreHandler(SetLightingOn)),
      RemoveLast(m.onTurnOffLights, StoreHandler(SetLightingOff)),
      RemoveLast(m.onTurnOnUpperFan, StoreHandler(SetUpperFanOn)),
      RemoveLast(m.onTurnOffUpperFan, StoreHandler(SetUpperFanOff)),
      RemoveLast(m.onTurnOnLowerFan, StoreHandler(SetLowerFanOn)),
      RemoveLast(m.onTurnOffLowerFan, StoreHandler(SetLowerFanOff)),
      RemoveLast(m.onValveOpen, StoreHandler(SetValveOpen)),
      RemoveLast(m.onValveClose, StoreHandler(SetValveClose)),
      m.onControlsChanged, m.onControlsRefreshingStatusChange)
  {
  }

  /** Disabling takes the last occurrence of each toggle's own handler out of
      that toggle's list and leaves the other two channels alone. */
  lemma DisableStoreListeners(m: Lists)
    ensures forall t :: DisableStore(m).Of(ToggleChannel(t)) == RemoveLast(m.Of(ToggleChannel(t)), StoreHandler(HandlerFor(t)))
    ensures DisableStore(m).Of(ControlsChangedChannel) == m.Of(ControlsChangedChannel)
    ensures DisableStore(m).Of(RefreshingStatusChannel) == m.Of(RefreshingStatusChannel)
  {
    DisableStoreFields(m);
    forall t
      ensures DisableStore(m).Of(ToggleChannel(t)) == RemoveLast(m.Of(ToggleChannel(t)), StoreHandler(HandlerFor(t)))
    {
      match t
      case TurnOnLights =>
      case TurnOffLights =>
      case TurnOnUpperFan =>
      case TurnOffUpperFan =>
      case TurnOnLowerFan =>
      case TurnOffLowerFan =>
      case OpenValve =>
      case CloseValve =>
    }
  }

  /** Taking out the subscriber just added restores the list. */
  lemma RemoveLastAppended(xs: seq<Subscriber>, x: Subscriber)
    ensures RemoveLast(xs + [x], x) == xs
  {
    assert (xs + [x])[..|xs|] == xs;
  }

  /** Disabling lists that each carry their toggle's own handler at the end
      gives back the lists without them. */
  lemma DisableAppended(e: Lists, m: Lists)
    requires e.onTurnOnLights == m.onTurnOnLights + [StoreHandler(SetLightingOn)]
    requires e.onTurnOffLights == m.onTurnOffLights + [StoreHandler(SetLightingOff)]
    requires e.onTurnOnUpperFan == m.onTurnOnUpperFan + [StoreHandler(SetUpperFanOn)]
    requires e.onTurnOffUpperFan == m.onTurnOffUpperFan + [StoreHandler(SetUpperFanOff)]
    requires e.onTurnOnLowerFan == m.onTurnOnLowerFan + [StoreHandler(SetLowerFanOn)]
    requires e.onTurnOffLowerFan == m.onTurnOffLowerFan + [StoreHandler(SetLowerFanOff)]
    requires e.onValveOpen == m.onValveOpen + [StoreHandler(SetValveOpen)]
    requires e.onValveClose == m.onValveClose + [StoreHandler(SetValveClose)]
    requires e.onControlsChanged == m.onControlsChanged
    requires e.onControlsRefreshingStatusChange == m.onControlsRefreshingStatusChange
    ensures DisableStore(e) == m
  {
    DisableStoreFields(e);
    RemoveLastAppended(m.onTurnOnLights, StoreHandler(SetLightingOn));
    RemoveLastAppended(m.onTurnOffLights, StoreHandler(SetLightingOff));
    RemoveLastAppended(m.onTurnOnUpperFan, StoreHandler(SetUpperFanOn));
    RemoveLastAppended(m.onTurnOffUpperFan, StoreHandler(SetUpperFanOff));
    RemoveLastAppended(m.onTurnOnLowerFan, StoreHandler(SetLowerFanOn));
    RemoveLastAppended(m.onTurnOffLowerFan, StoreHandler(SetLowerFanOff));
    RemoveLastAppended(m.onValveOpen, StoreHandler(SetValveOpen));
    RemoveLastAppended(m.onValveClose, StoreHandler(SetValveClose));
  }

  /** Disabling right after enabling gives every channel its old list back. */
  lemma DisableAfterEnable(m: Lists)
    ensures DisableStore(EnableStore(m)) == m
  {
    DisableAppended(EnableStore(m), m);
  }

  /** The publication journal shared by both modules: the order in which the
      sync tick's events went out, across modules. */
  class Journal {
    ghost var notices: seq<Notice>

    constructor ()
      ensures notices == []
    {
      notices := [];
    }
  }

  /** The controls module: one subscriber list per channel. */
  class ControlsEventsModule {
    /** The settings object whose handlers may be subscribed. */
    const store: GlobalSettings
    const journal: Journal
    var subscribers: Lists
    /** Every publish so far, each as its subscriber invocations in order. */
    ghost var rounds: seq<seq<Delivery>>

    ghost predicate Valid()
      reads this
    {
      Respects(subscribers)
    }

    constructor (store: GlobalSettings, journal: Journal)
      ensures this.store == store && this.journal == journal
      ensures Valid() && subscribers == NoSubscribers && rounds == []
    {
      this.store := store;
      this.journal := journal;
      subscribers := NoSubscribers;
      rounds := [];
    }

    /** The current subscribers of channel `c`, in subscription order. */
    function SubscribersOf(c: Channel): seq<Subscriber>
      reads this
    {
      subscribers.Of(c)
    }

    /** `+=` on a channel's event: the subscriber goes to the end of its list. */
    method Subscribe(c: Channel, s: Subscriber)
      requires Valid() && Compatible(c, s)
      modifies this`subscribers
      ensures Valid()
      ensures subscribers == Subscribed(old(subscribers), c, s)
      ensures SubscribersOf(c) == old(SubscribersOf(c)) + [s]
      ensures forall d :: d != c ==> SubscribersOf(d) == old(SubscribersOf(d))
    {
      var m := subscribers;
      RespectsWith(m, c, m.Of(c) + [s]);
      subscribers := Subscribed(m, c, s);
      forall d {
        WithOf(m, c, m.Of(c) + [s], d);
      }
    }

    /** `-=` on a channel's event: its last occurrence of `s` leaves the list. */
    method Unsubscribe(c: Channel, s: Subscriber)
      requires Valid()
      modifies this`subscribers
      ensures Valid()
      ensures subscribers == Unsubscribed(old(subscribers), c, s)
      ensures SubscribersOf(c) == RemoveLast(old(SubscribersOf(c)), s)
      ensures forall d :: d != c ==> SubscribersOf(d) == old(SubscribersOf(d))
    {
      var m := subscribers;
      RemoveLastSpec(m.Of(c), s);
      RespectsWith(m, c, RemoveLast(m.Of(c), s));
      subscribers := Unsubscribed(m, c, s);
      forall d {
        WithOf(m, c, RemoveLast(m.Of(c), s), d);
      }
    }

    /** The publish methods (`TurnOnLights` ... `CloseValve`, `ChangeControls`,
        `ChangeRefreshingStatus`): invoke the current subscribers of the event's
        own channel, synchronously and in order, each with the event's payload;
        a channel without subscribers does nothing. */
    method Publish(e: Event)
      requires Valid()
      modifies this`rounds, journal
      modifies store`lightsStatus, store`upperFanStatus, store`lowerFanStatus, store`valveStatus
      ensures Valid()
      ensures rounds == old(rounds) + [Deliveries(SubscribersOf(ChannelOf(e)), e)]
      ensures store.State() == Effect(old(store.State()), SubscribersOf(ChannelOf(e)))
      ensures !e.Toggled? ==> store.State() == old(store.State())
      ensures journal.notices == old(journal.notices) + [ControlsNotice(e)]
    {
      journal.notices := journal.notices + [ControlsNotice(e)];
      var subs := SubscribersOf(ChannelOf(e));
      ghost var round: seq<Delivery> := [];
      var i := 0;
      while i < |subs|
        invariant 0 <= i <= |subs|
        invariant round == Deliveries(subs[..i], e) && rounds == old(rounds)
        invariant store.State() == Effect(old(store.State()), subs[..i])
        invariant journal.notices == old(journal.notices) + [ControlsNotice(e)]
        decreases |subs| - i
      {
        assert subs[..i + 1][..i] == subs[..i];
        match subs[i] {
          case StoreHandler(h) => store.Invoke(h);
          case Adapter(_) =>
        }
        round := round + [Delivery(subs[i], e)];
        i := i + 1;
      }
      assert subs[..i] == subs;
      rounds := rounds + [round];
      if !e.Toggled? {
        EffectOfAdapters(old(store.State()), subs);
      }
    }
  }

  /** The measurements module, as far as the sync tick publishes on it; its
      own subscribers are not part of this model. */
  class MeasurementsEventsModule {
    const journal: Journal

    constructor (journal: Journal)
      ensures this.journal == journal
    {
      this.journal := journal;
    }

    method Publish(e: MeasurementsEvent)
      modifies journal
      ensures journal.notices == old(journal.notices) + [MeasurementsNotice(e)]
    {
      journal.notices := journal.notices + [MeasurementsNotice(e)];
    }
  }

  /** GlobalSettings.OnEnable: each handler joins the end of its toggle's list. */
  method OnEnable(settings: GlobalSettings, bus: ControlsEventsModule)
    requires bus.Valid() && bus.store == settings
    modifies bus`subscribers
    ensures bus.Valid()
    ensures bus.subscribers == EnableStore(old(bus.subscribers))
    ensures Wired(bus.subscribers)
    ensures forall t: Toggle :: bus.SubscribersOf(ToggleChannel(t)) == old(bus.SubscribersOf(ToggleChannel(t))) + [StoreHandler(HandlerFor(t))]
    ensures bus.SubscribersOf(ControlsChangedChannel) == old(bus.SubscribersOf(ControlsChangedChannel))
    ensures bus.SubscribersOf(RefreshingStatusChannel) == old(bus.SubscribersOf(RefreshingStatusChannel))
  {
    EnableStoreListeners(bus.subscribers);
    bus.Subscribe(ToggleChannel(TurnOnLights), StoreHandler(SetLightingOn));
    bus.Subscribe(ToggleChannel(TurnOffLights), StoreHandler(SetLightingOff));
    bus.Subscribe(ToggleChannel(TurnOnUpperFan), StoreHandler(SetUpperFanOn));
    bus.Subscribe(ToggleChannel(TurnOffUpperFan), StoreHandler(SetUpperFanOff));
    bus.Subscribe(ToggleChannel(TurnOnLowerFan), StoreHandler(SetLowerFanOn));
    bus.Subscribe(ToggleChannel(TurnOffLowerFan), StoreHandler(SetLowerFanOff));
    bus.Subscribe(ToggleChannel(OpenValve), StoreHandler(SetValveOpen));
    bus.Subscribe(ToggleChannel(CloseValve), StoreHandler(SetValveClose));
    EnableWires(old(bus.subscribers));
  }

  /** GlobalSettings.OnDisable: each handler leaves its toggle's list. */
  method OnDisable(settings: GlobalSettings, bus: ControlsEventsModule)
    requires bus.Valid() && bus.store == settings
    modifies bus`subscribers
    ensures bus.Valid()
    ensures bus.subscribers == DisableStore(old(bus.subscribers))
    ensures forall t: Toggle :: bus.SubscribersOf(ToggleChannel(t)) == RemoveLast(old(bus.SubscribersOf(ToggleChannel(t))), StoreHandler(HandlerFor(t)))
    ensures bus.SubscribersOf(ControlsChangedChannel) == old(bus.SubscribersOf(ControlsChangedChannel))
    ensures bus.SubscribersOf(RefreshingStatusChannel) == old(bus.SubscribersOf(RefreshingStatusChannel))
  {
    DisableStoreListeners(bus.subscribers);
    bus.Unsubscribe(ToggleChannel(TurnOnLights), StoreHandler(SetLightingOn));
    bus.Unsubscribe(ToggleChannel(TurnOffLights), StoreHandler(SetLightingOff));
    bus.Unsubscribe(ToggleChannel(TurnOnUpperFan), StoreHandler(SetUpperFanOn));
    bus.Unsubscribe(ToggleChannel(TurnOffUpperFan), StoreHandler(SetUpperFanOff));
    bus.Unsubscribe(ToggleChannel(TurnOnLowerFan), StoreHandler(SetLowerFanOn));
    bus.Unsubscribe(ToggleChannel(TurnOffLowerFan), StoreHandler(SetLowerFanOff));
    bus.Unsubscribe(ToggleChannel(OpenValve), StoreHandler(SetValveOpen));
    bus.Unsubscribe(ToggleChannel(CloseValve), StoreHandler(SetValveClose));
  }

  /** Enabling the store on admissible lists wires it. */
  lemma EnableWires(m: Lists)
    requires Respects(m)
    ensures Wired(EnableStore(m))
  {
    EnableStoreListeners(m);
    forall t: Toggle
      ensures StoreHandler(HandlerFor(t)) in EnableStore(m).Of(ToggleChannel(t))
      ensures OnlyHandler(EnableStore(m).Of(ToggleChannel(t)), HandlerFor(t))
    {
      OnlyHandlerAppended(m.Of(ToggleChannel(t)), HandlerFor(t));
    }
  }

  /** Appending `h` to a list whose only store handler is `h` keeps it so. */
  lemma OnlyHandlerAppended(subs: seq<Subscriber>, h: Handler)
    requires OnlyHandler(subs, h)
    ensures StoreHandler(h) in subs + [StoreHandler(h)]
    ensures OnlyHandler(subs + [StoreHandler(h)], h)
  {
    assert (subs + [StoreHandler(h)])[|subs|] == StoreHandler(h);
  }

  /** An enable followed by a disable leaves every subscriber list as it was. */
  method EnableThenDisable(settings: GlobalSettings, bus: ControlsEventsModule)
    requires bus.Valid() && bus.store == settings
    modifies bus`subscribers
    ensures bus.Valid()
    ensures bus.subscribers == old(bus.subscribers)
  {
    DisableAfterEnable(bus.subscribers);
    OnEnable(settings, bus);
    OnDisable(settings, bus);
  }
}
