/**
 * The Settings page: the dashboard preferences, their defaults, the
 * per-switch update, and the load/save pair over local storage.
 */
module Settings {
  import opened Wrappers
  import Storage
  import NC = NotificationContext

  datatype Theme = Dark | Light | Auto

  datatype NotificationPrefs = NotificationPrefs(priceAlerts: bool, newsUpdates: bool, soundEnabled: bool)

  datatype PrivacyPrefs = PrivacyPrefs(analytics: bool, personalizedAds: bool)

  datatype DashboardSettings = DashboardSettings(
    theme: Theme,
    currency: string,
    notifications: NotificationPrefs,
    privacy: PrivacyPrefs)

  /** The settings the page starts with before anything is loaded. */
  const Defaults := DashboardSettings(
    Dark, "USD", NotificationPrefs(true, true, true), PrivacyPrefs(true, false))

  /** The five section/key pairs the page's switches update. */
  datatype SettingKey = PriceAlerts | NewsUpdates | SoundEnabled | Analytics | PersonalizedAds

  /** The value a switch shows. */
  function Get(s: DashboardSettings, k: SettingKey): bool
  {
    match k
    case PriceAlerts => s.notifications.priceAlerts
    case NewsUpdates => s.notifications.newsUpdates
    case SoundEnabled => s.notifications.soundEnabled
    case Analytics => s.privacy.analytics
    case PersonalizedAds => s.privacy.personalizedAds
  }

  /** Every switch is on by default except personalised ads. */
  lemma DefaultSwitches(k: SettingKey)
    ensures Get(Defaults, k) <==> k != PersonalizedAds
  {
  }

  /** `updateSettings(section, key, value)`: the one switch takes the value; theme, currency and every other switch keep theirs. */
  function UpdateSetting(s: DashboardSettings, k: SettingKey, value: bool): (r: DashboardSettings)
    ensures Get(r, k) == value
    ensures forall j :: j != k ==> Get(r, j) == Get(s, j)
    ensures r.theme == s.theme && r.currency == s.currency
  {
    match k
    case PriceAlerts => s.(notifications := s.notifications.(priceAlerts := value))
    case NewsUpdates => s.(notifications := s.notifications.(newsUpdates := value))
    case SoundEnabled => s.(notifications := s.notifications.(soundEnabled := value))
    case Analytics => s.(privacy := s.privacy.(analytics := value))
    case PersonalizedAds => s.(privacy := s.privacy.(personalizedAds := value))
  }

  /** Settings are determined by theme, currency and the five switches. */
  lemma SettingsExtensionality(a: DashboardSettings, b: DashboardSettings)
    requires a.theme == b.theme && a.currency == b.currency
    requires forall k :: Get(a, k) == Get(b, k)
    ensures a == b
  {
    assert Get(a, PriceAlerts) == Get(b, PriceAlerts);
    assert Get(a, NewsUpdates) == Get(b, NewsUpdates);
    assert Get(a, SoundEnabled) == Get(b, SoundEnabled);
    assert Get(a, Analytics) == Get(b, Analytics);
    assert Get(a, PersonalizedAds) == Get(b, PersonalizedAds);
  }

  /** Writing a switch twice keeps only the second write. */
  lemma LastWriteWins(s: DashboardSettings, k: SettingKey, v1: bool, v2: bool)
    ensures UpdateSetting(UpdateSetting(s, k, v1), k, v2) == UpdateSetting(s, k, v2)
  {
    SettingsExtensionality(UpdateSetting(UpdateSetting(s, k, v1), k, v2), UpdateSetting(s, k, v2));
  }

  /** Writing the value a switch already shows changes nothing. */
  lemma WriteCurrentIsNoOp(s: DashboardSettings, k: SettingKey)
    ensures UpdateSetting(s, k, Get(s, k)) == s
  {
    SettingsExtensionality(UpdateSetting(s, k, Get(s, k)), s);
  }

  /** Writes to different switches commute. */
  lemma UpdatesCommute(s: DashboardSettings, j: SettingKey, k: SettingKey, v: bool, w: bool)
    requires j != k
    ensures UpdateSetting(UpdateSetting(s, j, v), k, w) == UpdateSetting(UpdateSetting(s, k, w), j, v)
  {
    SettingsExtensionality(UpdateSetting(UpdateSetting(s, j, v), k, w), UpdateSetting(UpdateSetting(s, k, w), j, v));
  }

  const SavedMessage := "Settings saved successfully!"

  class SettingsPage {
    var settings: DashboardSettings
    var saved: bool
    const store: Storage.Slot<DashboardSettings>
    const notifier: NC.NotificationProvider

    constructor (store: Storage.Slot<DashboardSettings>, notifier: NC.NotificationProvider)
      ensures this.store == store && this.notifier == notifier
      ensures settings == Defaults && !saved
    {
      this.store := store;
      this.notifier := notifier;
      settings, saved := Defaults, false;
    }

    /** `loadSettings`: stored settings replace the current ones; with nothing stored they stay. */
    method LoadSettings()
      modifies this`settings
      ensures settings == if store.value.Some? then store.value.value else old(settings)
    {
      if store.value.Some? {
        settings := store.value.value;
      }
    }

    /** `saveSettings`: stores the current settings, raises the saved flag and reports success. */
    method SaveSettings(noticeId: string)
      modifies this`saved, store, notifier
      ensures store.value == Some(settings) && saved
      ensures notifier.notifications == old(notifier.notifications) +
                [NC.Notification(noticeId, SavedMessage, NC.SuccessSeverity, NC.DefaultDuration)]
    {
      store.value := Some(settings);
      saved := true;
      notifier.ShowNotification(SavedMessage, Some(NC.SuccessSeverity), None, noticeId);
    }

    /** The saved flag drops again when the three-second timer fires. */
    method SavedTimerFired()
      modifies this`saved
      ensures !saved
    {
      saved := false;
    }

    /** A switch's change handler. */
    method UpdateSettings(k: SettingKey, value: bool)
      modifies this`settings
      ensures settings == UpdateSetting(old(settings), k, value)
    {
      settings := UpdateSetting(settings, k, value);
    }

    /** The theme selector: only the theme changes. */
    method SetTheme(theme: Theme)
      modifies this`settings
      ensures settings == old(settings).(theme := theme)
    {
      settings := settings.(theme := theme);
    }

    /** The currency selector: only the currency changes. */
    method SetCurrency(currency: string)
      modifies this`settings
      ensures settings == old(settings).(currency := currency)
    {
      settings := settings.(currency := currency);
    }
  }

  /** Saving then loading on a fresh page restores exactly the saved settings. */
  method SaveThenLoad(s: DashboardSettings, noticeId: string) returns (loaded: DashboardSettings)
    ensures loaded == s
  {
    var store := new Storage.Slot<DashboardSettings>(None);
    var notifier := new NC.NotificationProvider();
    var page := new SettingsPage(store, notifier);
    page.settings := s;
    page.SaveSettings(noticeId);
    var reopened := new SettingsPage(store, notifier);
    reopened.LoadSettings();
    loaded := reopened.settings;
  }
}
