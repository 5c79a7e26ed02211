# Greenhouse twin: control-state sync core

This project models the part of the greenhouse digital twin that keeps the
locally confirmed actuator state in step with the remote controller, and
proves properties of that model. The part has three pieces:

- **The store** (`GlobalSettings`, module `Store`). It holds the four
  confirmed actuator flags (lights, upper fan, lower fan, valve) and the
  `BlockAPICalls` gate. The flags change only through eight private handlers,
  and each handler writes one flag to a fixed value. A "first instance wins"
  rule registers the process-wide instance.
- **The controls event bus** (`ControlsEventsModule`, module `EventCenter`).
  It has ten channels: eight payload-free toggles (on and off per actuator),
  `ControlsChanged(Controls)` and `RefreshingStatusChange(bool)`. Each
  channel has an ordered subscriber list. Publishing invokes the channel's
  current subscribers synchronously, in subscription order. The store's enable
  and disable hooks subscribe and unsubscribe its handlers. The measurements
  module is modelled only as far as the sync tick publishes on it.
- **The sync tick** (`GreenhouseManager`, module `Greenhouse`). The tick
  checks the gate and announces "refreshing". The fetch's success callback
  checks the gate again. It then publishes the snapshot, diffs the snapshot
  against the store (lights, then the coupled fans, then the valve),
  publishes the toggles the diff calls for, publishes the measurements, and
  clears "refreshing". The error callback only clears "refreshing".

## How the model is built

- The store and the bus are classes whose methods update their fields in
  place.
- Each handler method has a `modifies` clause naming the one field it
  writes. Every method whose frame includes a flag states the new flags as
  the effect of the store's handlers. `BlockAPICalls` is the one field that
  `SetBlockApiCalls` sets directly.
- A subscriber is either one of the store's handlers or a presentation
  adapter. An adapter's effect lies outside the core, so it appears only in
  the bus's ghost record of deliveries (`rounds`).
- A shared ghost `Journal` records every publication on both modules, in
  order. The order properties are stated against it.
- The source's diff reads the store live between its publishes.
  - `ProcessControls` states that behaviour for any subscriber lists.
  - `Diff` is the one-read diff.
  - `WiredProcessIsDiff` shows the two agree once the store's handlers are
    subscribed as its enable hook leaves them.
- `GlobalParameters.Instance`, which `GreenhouseManager.cs` reads, is taken to
  be the same store as `GlobalSettings`. Its members match
  `GlobalSettings.cs:28-52`.
- The asynchronous fetch is split into separate steps:
  `InitializeAllCurrentData` issues it, and `OnSuccess` or `OnError` is called
  later with the result. The fetched data is an input.
- The source has no in-flight guard, so the model has none either. A tick
  may be called again before a callback arrives.

Three points of the code's order that the model keeps:

- `ControlsChanged(snapshot)` is published first, before any toggle
  (`GreenhouseManager.cs:72`).
- A success callback that finds the gate closed returns at once
  (`GreenhouseManager.cs:52-53`). It publishes nothing, and it does not clear
  "refreshing" either.
- The unblocked tick publishes refreshing=true before it issues the fetch
  (`GreenhouseManager.cs:44-48`).

## Model

| member | source | states |
|---|---|---|
| Store.Handle | Assets/Code/Scripts/GlobalSettings.cs:78-116 | a handler sets its own actuator to its fixed value and leaves the other three flags as they were |
| Store.HandleIdempotent | Assets/Code/Scripts/GlobalSettings.cs:78-116 | running a handler twice leaves the same flags as running it once |
| Store.GlobalSettings.constructor | Assets/Code/Scripts/GlobalSettings.cs:22-26 | the store starts with lights on, both fans off, the valve closed and API calls not blocked |
| Store.GlobalSettings.SetBlockApiCalls | Assets/Code/Scripts/GlobalSettings.cs:48-52 | the gate's public setter writes the gate and nothing else |
| Store.GlobalSettings.SetLightingOn | Assets/Code/Scripts/GlobalSettings.cs:78-81 | writes only the lights flag, to true |
| Store.GlobalSettings.SetLightingOff | Assets/Code/Scripts/GlobalSettings.cs:83-86 | writes only the lights flag, to false |
| Store.GlobalSettings.SetUpperFanOn | Assets/Code/Scripts/GlobalSettings.cs:88-91 | writes only the upper fan flag, to true; the lower fan is untouched |
| Store.GlobalSettings.SetUpperFanOff | Assets/Code/Scripts/GlobalSettings.cs:93-96 | writes only the upper fan flag, to false |
| Store.GlobalSettings.SetLowerFanOn | Assets/Code/Scripts/GlobalSettings.cs:98-101 | writes only the lower fan flag, to true |
| Store.GlobalSettings.SetLowerFanOff | Assets/Code/Scripts/GlobalSettings.cs:103-106 | writes only the lower fan flag, to false |
| Store.GlobalSettings.SetValveOpen | Assets/Code/Scripts/GlobalSettings.cs:108-111 | writes only the valve flag, to true |
| Store.GlobalSettings.SetValveClose | Assets/Code/Scripts/GlobalSettings.cs:113-116 | writes only the valve flag, to false |
| Store.GlobalSettings.Invoke | Assets/Code/Scripts/GlobalSettings.cs:78-116 | a delegate invocation of a handler does what that handler does to the flags |
| Store.SettingsRegistry.constructor | Assets/Code/Scripts/GlobalSettings.cs:12 | no instance is registered before any object wakes |
| Store.SettingsRegistry.Awake | Assets/Code/Scripts/GlobalSettings.cs:118-129 | the first object to wake becomes the instance; a later one is destroyed and the instance stays the same |
| EventCenter.DeliveriesInOrder | Assets/Code/Scripts/EventCenter/Modules/ControlsEventsModule.cs:23-74 | a publish invokes each subscriber of the list once, in list order, and hands every one of them the same payload |
| EventCenter.EffectOfAdapters | Assets/Code/Scripts/EventCenter/Modules/ControlsEventsModule.cs:66-74 | presentation adapters never change the store's flags |
| EventCenter.EffectOfOneHandler | Assets/Code/Scripts/EventCenter/Modules/ControlsEventsModule.cs:23-64 | if one handler is the only store handler on a list, invoking the list runs it once exactly when it is there, however often it is subscribed |
| EventCenter.WithOf | Assets/Code/Scripts/EventCenter/Modules/ControlsEventsModule.cs:9-18 | the ten event fields are independent: replacing one list leaves the other nine as they were |
| EventCenter.RespectsWith | Assets/Code/Scripts/GlobalSettings.cs:54-76 | changing one list to an admissible one keeps every store handler on its own toggle's channel |
| EventCenter.SubscribedToggle | Assets/Code/Scripts/EventCenter/Modules/ControlsEventsModule.cs:20-34 | with the store's handler subscribed, a toggle sets the store flag it names (lights true after `TurnOnLights`, false after `TurnOffLights`, and so on); without it, the store is left alone |
| EventCenter.WiredToggle | Assets/Code/Scripts/EventCenter/Modules/ControlsEventsModule.cs:23-64 | on lists wired by the enable hook, each toggle runs exactly its own handler |
| EventCenter.DeliverAllWired | Assets/Code/Scripts/EventCenter/Modules/ControlsEventsModule.cs:23-64 | on wired lists, publishing a run of toggles changes the flags as the store's handlers do, in the same order |
| EventCenter.DeliverAllUnhooked | Assets/Code/Scripts/EventCenter/Modules/ControlsEventsModule.cs:23-64 | with no store handler subscribed, publishing toggles leaves the flags unchanged |
| EventCenter.ApplyConcat | Assets/Code/Scripts/GreenhouseManager.cs:70-111 | handling the toggles `a + b` is handling `a` and then `b` |
| EventCenter.RemoveLastSpec | Assets/Code/Scripts/GlobalSettings.cs:66-76 | `-=` of a subscriber that is not there changes nothing; of one that is there, it removes exactly one copy and adds nothing |
| EventCenter.RemoveLastAfterOthers | Assets/Code/Scripts/GlobalSettings.cs:66-76 | `-=` removes the handler's own latest entry, even when other subscribers joined the list after it |
| EventCenter.RemoveLastAppended | Assets/Code/Scripts/GlobalSettings.cs:66-76 | `-=` right after `+=` of the same subscriber gives the list back |
| EventCenter.EnableStoreListeners | Assets/Code/Scripts/GlobalSettings.cs:54-64 | the enable hook appends each toggle's matching handler to that toggle's list (TurnOnLights gets SetLightingOn, …, ValveClose gets SetValveClose) and leaves ControlsChanged and RefreshingStatusChange alone |
| EventCenter.DisableStoreFields | Assets/Code/Scripts/GlobalSettings.cs:66-76 | the disable hook takes its handler out of each toggle list and keeps the other two lists, field by field |
| EventCenter.DisableStoreListeners | Assets/Code/Scripts/GlobalSettings.cs:66-76 | the disable hook takes the last copy of each matching handler out of its toggle's list and leaves the other two channels alone |
| EventCenter.DisableAppended | Assets/Code/Scripts/GlobalSettings.cs:54-76 | lists ending in their toggle's own handler lose exactly that entry when the store is disabled |
| EventCenter.DisableAfterEnable | Assets/Code/Scripts/GlobalSettings.cs:54-76 | enable and then disable give every subscriber list back as it was |
| EventCenter.EnableWires | Assets/Code/Scripts/GlobalSettings.cs:54-64 | after enabling, every toggle channel has its own store handler and no other one |
| EventCenter.OnlyHandlerAppended | Assets/Code/Scripts/GlobalSettings.cs:54-64 | appending a toggle's own handler to its list keeps that handler the only store handler there, and puts it there |
| EventCenter.ControlsEventsModule.constructor | Assets/Code/Scripts/EventCenter/Modules/ControlsEventsModule.cs:9-18 | all ten event fields start empty (null) |
| EventCenter.ControlsEventsModule.Subscribe | Assets/Code/Scripts/EventCenter/Modules/ControlsEventsModule.cs:9-18 | `+=` puts the subscriber at the end of its channel's list and changes no other list |
| EventCenter.ControlsEventsModule.Unsubscribe | Assets/Code/Scripts/EventCenter/Modules/ControlsEventsModule.cs:9-18 | `-=` takes the last occurrence of the subscriber out of its channel's list and changes no other list |
| EventCenter.ControlsEventsModule.Publish | Assets/Code/Scripts/EventCenter/Modules/ControlsEventsModule.cs:23-74 | only the event's own channel is invoked, and its whole list runs in order with the event's payload. An empty list does nothing. Only toggles can change the store. The publication goes into the journal |
| EventCenter.MeasurementsEventsModule.Publish | Assets/Code/Scripts/GreenhouseManager.cs:113-116 | a measurements publication goes into the shared journal |
| EventCenter.OnEnable | Assets/Code/Scripts/GlobalSettings.cs:54-64 | the eight `+=` in the source order leave the lists as `EnableStore` says, with the store wired |
| EventCenter.OnDisable | Assets/Code/Scripts/GlobalSettings.cs:66-76 | the eight `-=` in the source order leave the lists as `DisableStore` says |
| EventCenter.EnableThenDisable | Assets/Code/Scripts/GlobalSettings.cs:54-76 | running the enable hook and then the disable hook restores the bus's subscriber lists |
| Greenhouse.LightsDiff | Assets/Code/Scripts/GreenhouseManager.cs:74-81 | at most one lights toggle. There is none exactly when snapshot and store agree, and after it the lights flag equals the snapshot with the other flags unchanged |
| Greenhouse.FansDiff | Assets/Code/Scripts/GreenhouseManager.cs:83-101 | no fan toggle exactly when "some fan on" already equals `FanOn`. Otherwise upper then lower fan are switched together, and both end equal to `FanOn` |
| Greenhouse.ValveDiff | Assets/Code/Scripts/GreenhouseManager.cs:103-110 | at most one valve toggle. There is none exactly when snapshot and store agree, and after it the valve flag equals the snapshot with the other flags unchanged |
| Greenhouse.Diff | Assets/Code/Scripts/GreenhouseManager.cs:70-111 | handling the diff's toggles reconciles the store with the snapshot. The diff is empty exactly when the two are already reconciled, and has at most four toggles |
| Greenhouse.DiffSettles | Assets/Code/Scripts/GreenhouseManager.cs:70-111 | a second sync against the same snapshot publishes no toggle |
| Greenhouse.SplitFansStay | Assets/Code/Scripts/GreenhouseManager.cs:83-101 | with `FanOn` and exactly one fan on, no fan toggle is published and the fans stay mismatched |
| Greenhouse.WiredProcessIsDiff | Assets/Code/Scripts/GreenhouseManager.cs:70-111 | with the store wired, the live-reading diff publishes `Diff` and leaves the store reconciled with the snapshot |
| Greenhouse.UnhookedProcessRepeats | Assets/Code/Scripts/GreenhouseManager.cs:70-111 | with the store's handlers unsubscribed, the diff still publishes its toggles, the store does not move, and the next sync publishes the same toggles again |
| Greenhouse.GreenhouseManager.InitializeAllCurrentData | Assets/Code/Scripts/GreenhouseManager.cs:36-48 | blocked: no fetch and no event. Unblocked: refreshing=true on Controls, then on Measurements, then the fetch. The store is untouched either way |
| Greenhouse.GreenhouseManager.OnSuccess | Assets/Code/Scripts/GreenhouseManager.cs:49-60 | blocked by now: no publication and no state change, and refreshing is not reset. Otherwise the publications are, in order, ControlsChanged(snapshot), the light, fan and valve toggles, MeasurementsChanged, then refreshing=false on Controls and on Measurements, and the store ends as the live diff leaves it |
| Greenhouse.GreenhouseManager.OnError | Assets/Code/Scripts/GreenhouseManager.cs:61-66 | only refreshing=false is published, on Controls then on Measurements, and the store is unchanged |
| Greenhouse.GreenhouseManager.ProcessControlsData | Assets/Code/Scripts/GreenhouseManager.cs:70-111 | publishes the snapshot, then the live diff's toggles, and leaves the store as `ProcessControls` says |
| Greenhouse.GreenhouseManager.SyncLights | Assets/Code/Scripts/GreenhouseManager.cs:74-81 | publishes exactly the lights toggle `LightsDiff` asks for against the store as it is now |
| Greenhouse.GreenhouseManager.SyncFans | Assets/Code/Scripts/GreenhouseManager.cs:83-101 | publishes exactly the fan toggles `FansDiff` asks for against the store as it is now, upper fan first |
| Greenhouse.GreenhouseManager.SyncValve | Assets/Code/Scripts/GreenhouseManager.cs:103-110 | publishes exactly the valve toggle `ValveDiff` asks for against the store as it is now |
| Greenhouse.GreenhouseManager.ProcessMeasurementsData | Assets/Code/Scripts/GreenhouseManager.cs:113-116 | the measurements are published once, unchanged |
| Greenhouse.GreenhouseManager.ProcessDisruptiveData | Assets/Code/Scripts/GreenhouseManager.cs:118-121 | disruptive data changes no state and publishes nothing |

## Left out

- The HTTP client (`HttpClient/HttpClient.cs`) is left out. It is transport plumbing made of thread-pool work, web requests and a dispatcher, all foreign calls and concurrency.
- `DataSourceFactory.GetDataSource` and `IDataSource` are not part of this model. The fetch result is an input to `OnSuccess`, and the error reason is an input to `OnError`.
- The `InvokeRepeating` timer and the `SettingsManager` settings (`GreenhouseManager.cs:18-33`) are engine scheduling. Ticks are explicit calls to `InitializeAllCurrentData`.
- `GetPlantModel` (`GreenhouseManager.cs:123-170`) is left out. It is OBJ parsing in a library that is not shown, plus float bounds arithmetic and scene transforms.
- `GetCurrentAirflow` and the airflow visualisation toggles (`GreenhouseManager.cs:172-195`) are left out. They are a pass-through publish and scene toggling.
- The contents of the measurements and disruptive payloads are left out. `Measurement` and `List<Disruptive>` are types whose definitions are not part of this model, so the model represents them as opaque strings.
- The measurements module's own subscribers are left out, because that module's source is not part of this model. Its publications are recorded in the journal only.
- The configuration defaults (`GlobalSettings.cs:15-19`) are left out. They are plain data with no behaviour.
- `DataViewManager.cs`, which does UI activation and button colours, is not part of this model.
- `MonoBehaviourSingleton.cs`, a lazy engine lookup, is not part of this model.
- `Debug.LogError` in the error callback is left out. It is logging only.
- What presentation adapters do when invoked is left out, because that lies outside the core. The model records only that they were invoked, with which payload and in which order.
- An exception thrown by a subscriber would stop a C# multicast invocation part-way. This is not modelled: every subscriber is assumed to return.
- `DontDestroyOnLoad` and `Destroy(gameObject)` in `Awake` are reduced to the result `destroyed`. The engine's object lifetime, and its ordering of `OnEnable` against `Awake`, are not modelled.
- OnEnable, OnDisable: they are free methods over a `GlobalSettings` and the bus rather than members of `GlobalSettings`, because the store module cannot import the bus module that imports it.
- Greenhouse.GreenhouseManager.ProcessControlsData: its three if/else-if blocks are the separate steps `SyncLights`, `SyncFans` and `SyncValve`, called in the order of `GreenhouseManager.ProcessControlsData`. This keeps each proof small, and the reads and publishes stay exactly those of that method.
