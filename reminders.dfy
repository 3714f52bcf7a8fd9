/**
 * The settings screen: the reminder switch and interval, persisted under
 * "settings", and the background-task registration they drive. Registration
 * and unregistration failures are logged and swallowed, and saves are not
 * awaited, so the recorded switch can disagree with the live registration.
 */
module Reminders {
  import opened Storage
  import opened BackgroundFetch

  /** The single task name the screen registers under. */
  const BackgroundFetchTask := "background-fetch-task"

  const DefaultInterval := 30

  /** The intervals, in minutes, that the screen offers as buttons. */
  const OfferedIntervals: set<int> := {15, 30, 60, 120}

  /** The registration options for a reminder interval of `minutes`. */
  function ReminderOptions(minutes: int): FetchOptions {
    FetchOptions(minutes * 60, false, true)
  }

  class SettingsScreen {
    var notificationsEnabled: bool
    /** The reminder interval in minutes. */
    var interval: int

    /** Reminders start off, at the default interval. */
    constructor ()
      ensures !notificationsEnabled && interval == DefaultInterval
    {
      notificationsEnabled, interval := false, DefaultInterval;
    }

    /**
     * The recorded state matches the live registration: a registration
     * exists exactly when reminders are on, and it carries the current interval.
     */
    predicate Mirrors(service: TaskService)
      reads this, service
    {
      && (notificationsEnabled <==> BackgroundFetchTask in service.tasks)
      && (BackgroundFetchTask in service.tasks ==> service.tasks[BackgroundFetchTask] == ReminderOptions(interval))
    }

    /**
     * `loadSettings`: a stored record supplies both fields; nothing stored,
     * a failed read or a value of another shape leaves both as they were.
     * The registration is not touched.
     */
    method LoadSettings(store: AsyncStorage, readFails: bool)
      modifies this
      ensures var loaded := !readFails && SettingsKey in store.items && store.items[SettingsKey].SettingsRecord?;
        && (loaded ==> notificationsEnabled == store.items[SettingsKey].settings.notificationsEnabled)
        && (loaded ==> interval == store.items[SettingsKey].settings.interval)
        && (!loaded ==> notificationsEnabled == old(notificationsEnabled) && interval == old(interval))
    {
      var stored := store.GetItem(SettingsKey, readFails);
      if stored.Found? && stored.value.SettingsRecord? {
        notificationsEnabled := stored.value.settings.notificationsEnabled;
        interval := stored.value.settings.interval;
      }
    }

    /** `saveSettings`: writes the whole record; a failed write is logged and changes nothing. */
    method SaveSettings(store: AsyncStorage, settings: Settings, writeFails: bool)
      modifies store
      ensures store.items == if writeFails then old(store.items) else old(store.items)[SettingsKey := SettingsRecord(settings)]
      ensures WellShaped(old(store.items)) ==> WellShaped(store.items)
    {
      if WellShaped(store.items) {
        WriteKeepsShape(store.items, SettingsKey, SettingsRecord(settings));
      }
      var _ := store.SetItem(SettingsKey, SettingsRecord(settings), writeFails);
    }

    /**
     * `registerBackgroundFetchAsync`, where `minutes` is the interval the
     * calling handler holds: registers the single task with a minimum
     * interval of `minutes * 60` seconds, kept after the app exits and
     * started at boot; a failure is logged and swallowed.
     */
    method RegisterBackgroundFetch(service: TaskService, minutes: int, fails: bool)
      modifies service
      ensures service.requests == old(service.requests) + [Register(BackgroundFetchTask, FetchOptions(minutes * 60, false, true))]
      ensures service.tasks == if fails then old(service.tasks) else old(service.tasks)[BackgroundFetchTask := ReminderOptions(minutes)]
    {
      var _ := service.RegisterTask(BackgroundFetchTask, ReminderOptions(minutes), fails);
    }

    /** `unregisterBackgroundFetchAsync`: removes the single task; a failure is logged and swallowed. */
    method UnregisterBackgroundFetch(service: TaskService, fails: bool)
      modifies service
      ensures service.requests == old(service.requests) + [Unregister(BackgroundFetchTask)]
      ensures service.tasks == if fails then old(service.tasks) else old(service.tasks) - {BackgroundFetchTask}
    {
      var _ := service.UnregisterTask(BackgroundFetchTask, fails);
    }

    /**
     * `toggleNotifications(value)`: request registration (on) or
     * unregistration (off), then record `value` and save it with the
     * unchanged interval. The switch takes `value` whether or not the
     * request succeeded; a successful request leaves the state mirrored.
     */
    method ToggleNotifications(value: bool, store: AsyncStorage, service: TaskService,
                               serviceFails: bool, saveFails: bool)
      modifies this, store, service
      ensures notificationsEnabled == value && interval == old(interval)
      ensures service.requests == old(service.requests) +
        [if value then Register(BackgroundFetchTask, ReminderOptions(interval)) else Unregister(BackgroundFetchTask)]
      ensures service.tasks ==
        if serviceFails then old(service.tasks)
        else if value then old(service.tasks)[BackgroundFetchTask := ReminderOptions(interval)]
        else old(service.tasks) - {BackgroundFetchTask}
      ensures service.tasks.Keys <= old(service.tasks.Keys) + {BackgroundFetchTask}
      ensures store.items ==
        if saveFails then old(store.items)
        else old(store.items)[SettingsKey := SettingsRecord(Settings(value, interval))]
      ensures !serviceFails ==> Mirrors(service)
      ensures WellShaped(old(store.items)) ==> WellShaped(store.items)
    {
      if value {
        RegisterBackgroundFetch(service, interval, serviceFails);
      } else {
        UnregisterBackgroundFetch(service, serviceFails);
      }
      notificationsEnabled := value;
      SaveSettings(store, Settings(value, interval), saveFails);
    }

    /**
     * `updateInterval(newInterval)`: record and save the new interval, then,
     * when reminders are on, unregister and register again, in that order.
     * The re-registration uses the interval the handler captured, which is
     * the one before the update.
     */
    method UpdateInterval(newInterval: int, store: AsyncStorage, service: TaskService,
                          unregisterFails: bool, registerFails: bool, saveFails: bool)
      requires newInterval in OfferedIntervals
      modifies this, store, service
      ensures interval == newInterval && notificationsEnabled == old(notificationsEnabled)
      ensures store.items ==
        if saveFails then old(store.items)
        else old(store.items)[SettingsKey := SettingsRecord(Settings(notificationsEnabled, newInterval))]
      ensures !notificationsEnabled ==> service.tasks == old(service.tasks) && service.requests == old(service.requests)
      ensures notificationsEnabled ==>
        service.requests == old(service.requests) + [Unregister(BackgroundFetchTask), Register(BackgroundFetchTask, ReminderOptions(old(interval)))]
      ensures notificationsEnabled ==>
        var unregistered := if unregisterFails then old(service.tasks) else old(service.tasks) - {BackgroundFetchTask};
        service.tasks == if registerFails then unregistered else unregistered[BackgroundFetchTask := ReminderOptions(old(interval))]
      ensures service.tasks.Keys <= old(service.tasks.Keys) + {BackgroundFetchTask}
      ensures WellShaped(old(store.items)) ==> WellShaped(store.items)
    {
      var rendered := interval;
      interval := newInterval;
      SaveSettings(store, Settings(notificationsEnabled, newInterval), saveFails);
      if notificationsEnabled {
        UnregisterBackgroundFetch(service, unregisterFails);
        RegisterBackgroundFetch(service, rendered, registerFails);
      }
    }
  }

  /**
   * Turning reminders on when the registration fails: the switch is on and
   * saved as on, yet no task is registered.
   */
  method EnableWhenRegistrationFails() returns (screen: SettingsScreen, store: AsyncStorage, service: TaskService)
    ensures screen.notificationsEnabled && !screen.Mirrors(service)
    ensures BackgroundFetchTask !in service.tasks
    ensures store.items == map[SettingsKey := SettingsRecord(Settings(true, DefaultInterval))]
  {
    screen := new SettingsScreen();
    store := new AsyncStorage();
    service := new TaskService();
    screen.ToggleNotifications(true, store, service, true, false);
  }

  /**
   * Turning reminders on at 30 minutes and then choosing 60, with every call
   * succeeding: the interval is recorded and saved as 60, but the live
   * registration still has a minimum interval of 1800 seconds (30 minutes).
   */
  method EnableThenChangeInterval() returns (screen: SettingsScreen, store: AsyncStorage, service: TaskService)
    ensures screen.notificationsEnabled && screen.interval == 60
    ensures store.items == map[SettingsKey := SettingsRecord(Settings(true, 60))]
    ensures service.tasks == map[BackgroundFetchTask := FetchOptions(1800, false, true)]
    ensures !screen.Mirrors(service)
  {
    screen := new SettingsScreen();
    store := new AsyncStorage();
    service := new TaskService();
    screen.ToggleNotifications(true, store, service, false, false);
    screen.UpdateInterval(60, store, service, false, false, false);
    assert service.tasks[BackgroundFetchTask] != ReminderOptions(60);
  }
}
