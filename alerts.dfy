/**
 * The Alerts page: the price-alert records kept in local storage, the
 * toggle, delete and add operations, the statistics, and the add form.
 */
module Alerts {
  import opened Wrappers
  import opened JsBuiltins
  import Storage
  import NC = NotificationContext

  datatype Direction = Above | Below

  /** One saved price alert. `createdAt` is the creation time in milliseconds. */
  datatype Alert = Alert(
    id: string,
    coinId: string,
    coinName: string,
    coinSymbol: string,
    coinImage: string,
    direction: Direction,
    price: real,
    isActive: bool,
    createdAt: int)

  /** The add-alert dialog's fields, all text except the direction. */
  datatype AlertForm = AlertForm(
    coinId: string,
    coinName: string,
    coinSymbol: string,
    coinImage: string,
    direction: Direction,
    price: string)

  /** The form as it starts and as every reset leaves it. */
  const EmptyForm := AlertForm("", "", "", "", Above, "")

  /**
   * The start of the image URL used when the form gives none; the form's
   * `coinId` follows it. The dialog has no input for `coinId`, so on the
   * page that field is always empty (see `AlertsPage.CoinIdBlank`).
   */
  const ImageUrlPrefix := "https://api.coingecko.com/api/v3/coins/"

  /** `alerts.map(...)` in `toggleAlert`: flip `isActive` on the alerts with that id. */
  function ToggleActive(alerts: seq<Alert>, alertId: string): (r: seq<Alert>)
    ensures |r| == |alerts|
    ensures forall k :: 0 <= k < |alerts| ==>
              r[k].(isActive := alerts[k].isActive) == alerts[k]
              && (r[k].isActive != alerts[k].isActive <==> alerts[k].id == alertId)
  {
    seq(|alerts|, k requires 0 <= k < |alerts| =>
      if alerts[k].id == alertId then alerts[k].(isActive := !alerts[k].isActive) else alerts[k])
  }

  /** Toggling the same alert twice restores the list. */
  lemma ToggleActiveTwice(alerts: seq<Alert>, alertId: string)
    ensures ToggleActive(ToggleActive(alerts, alertId), alertId) == alerts
  {
    var twice := ToggleActive(ToggleActive(alerts, alertId), alertId);
    assert forall k :: 0 <= k < |alerts| ==> twice[k] == alerts[k];
  }

  /** `alerts.filter(...)` in `deleteAlert`: the alerts with another id, in order. */
  function DeleteById(alerts: seq<Alert>, alertId: string): (r: seq<Alert>)
    ensures forall k :: 0 <= k < |r| ==> r[k].id != alertId && r[k] in alerts
    ensures forall k :: 0 <= k < |alerts| && alerts[k].id != alertId ==> alerts[k] in r
    ensures multiset(r) <= multiset(alerts)
  {
    FilterSubMultiset(alerts, (a: Alert) => a.id != alertId);
    Filter(alerts, (a: Alert) => a.id != alertId)
  }

  /** One alert is kept exactly when its id differs. */
  lemma DeleteByIdSingle(a: Alert, alertId: string)
    ensures DeleteById([a], alertId) == if a.id != alertId then [a] else []
  {
  }

  /** Deleting works part by part, so the kept alerts stay in their order. */
  lemma DeleteByIdAppend(front: seq<Alert>, back: seq<Alert>, alertId: string)
    ensures DeleteById(front + back, alertId) == DeleteById(front, alertId) + DeleteById(back, alertId)
  {
    FilterConcat(front, back, (a: Alert) => a.id != alertId);
  }

  /** Deleting an id no alert carries changes nothing. */
  lemma DeleteUnknownIsNoOp(alerts: seq<Alert>, alertId: string)
    requires forall k :: 0 <= k < |alerts| ==> alerts[k].id != alertId
    ensures DeleteById(alerts, alertId) == alerts
  {
    FilterKeepsAll(alerts, (a: Alert) => a.id != alertId);
  }

  /** Deleting removes exactly the alerts carrying the id. */
  lemma DeleteCount(alerts: seq<Alert>, alertId: string)
    ensures |DeleteById(alerts, alertId)| + |Filter(alerts, (a: Alert) => a.id == alertId)| == |alerts|
  {
    FilterComplementary(alerts, (a: Alert) => a.id != alertId, (a: Alert) => a.id == alertId);
  }

  /** `alerts.find(...)`: the first alert with that id. */
  function FindAlert(alerts: seq<Alert>, alertId: string): (r: Option<Alert>)
    ensures r.Some? <==> exists k :: 0 <= k < |alerts| && alerts[k].id == alertId
    ensures r.Some? ==> r.value.id == alertId && r.value in alerts
    ensures r.Some? ==> exists k :: 0 <= k < |alerts| && alerts[k] == r.value
                                   && forall j :: 0 <= j < k ==> alerts[j].id != alertId
  {
    Find(alerts, (a: Alert) => a.id == alertId)
  }

  /** The status word of the toggle notification, from the alert's state before the toggle. */
  function ToggleStatus(before: Alert): (status: string)
    ensures status == "activated" <==> !before.isActive
    ensures status == "deactivated" <==> before.isActive
  {
    if !before.isActive then "activated" else "deactivated"
  }

  /** When ids are unique, the toggle notification reports the state the alert is in afterwards. */
  lemma ToggleStatusReportsNewState(alerts: seq<Alert>, k: int)
    requires 0 <= k < |alerts|
    requires forall j :: 0 <= j < |alerts| && j != k ==> alerts[j].id != alerts[k].id
    ensures FindAlert(alerts, alerts[k].id) == Some(alerts[k])
    ensures ToggleStatus(alerts[k]) == "activated" <==> ToggleActive(alerts, alerts[k].id)[k].isActive
  {
    var i := FindIndex(alerts, (a: Alert) => a.id == alerts[k].id);
    assert i == Some(k);
  }

  predicate IsActive(a: Alert) { a.isActive }
  predicate IsAbove(a: Alert) { a.direction == Above }
  predicate IsBelow(a: Alert) { a.direction == Below }

  /** The `{ active, above, below }` counters. */
  datatype AlertStats = AlertStats(active: nat, above: nat, below: nat)

  /** `getAlertStats`: every alert is either above or below, so those two counts add up to the total. */
  function AlertStatsOf(alerts: seq<Alert>): (st: AlertStats)
    ensures st.active == CountWhere(alerts, IsActive)
    ensures st.above == CountWhere(alerts, IsAbove)
    ensures st.below == CountWhere(alerts, IsBelow)
    ensures st.above + st.below == |alerts|
  {
    FilterComplementary(alerts, IsAbove, IsBelow);
    FilterLengthCounts(alerts, IsActive);
    FilterLengthCounts(alerts, IsAbove);
    FilterLengthCounts(alerts, IsBelow);
    AlertStats(|Filter(alerts, IsActive)|, |Filter(alerts, IsAbove)|, |Filter(alerts, IsBelow)|)
  }

  /** The counters of a single alert: it is active or not, and points either above or below. */
  lemma AlertStatsOfSingle(a: Alert)
    ensures AlertStatsOf([a]) == AlertStats(if a.isActive then 1 else 0,
                                            if a.direction == Above then 1 else 0,
                                            if a.direction == Below then 1 else 0)
  {
  }

  /** The counters of a list are the sums of the counters of its parts. */
  lemma AlertStatsOfAppend(front: seq<Alert>, back: seq<Alert>)
    ensures var st, f, b := AlertStatsOf(front + back), AlertStatsOf(front), AlertStatsOf(back);
      st == AlertStats(f.active + b.active, f.above + b.above, f.below + b.below)
  {
    FilterConcat(front, back, IsActive);
    FilterConcat(front, back, IsAbove);
    FilterConcat(front, back, IsBelow);
  }

  /** Toggling one alert with a unique id moves the active counter by exactly one and leaves above/below alone. */
  lemma ToggleMovesActiveCountByOne(alerts: seq<Alert>, alertId: string)
    requires |Filter(alerts, (a: Alert) => a.id == alertId)| == 1
    ensures var before, after := AlertStatsOf(alerts), AlertStatsOf(ToggleActive(alerts, alertId));
      (after.active == before.active + 1 || after.active + 1 == before.active)
      && after.above == before.above && after.below == before.below
  {
    ToggleKeepsActiveCount(alerts, alertId);
    ToggleKeepsDirections(alerts, alertId);
  }

  lemma {:induction false} ToggleKeepsActiveCount(alerts: seq<Alert>, alertId: string)
    requires |Filter(alerts, (a: Alert) => a.id == alertId)| == 1
    ensures var before := |Filter(alerts, IsActive)|;
      var after := |Filter(ToggleActive(alerts, alertId), IsActive)|;
      after == before + 1 || after + 1 == before
  {
    if alerts[0].id == alertId {
      assert |Filter(alerts[1..], (a: Alert) => a.id == alertId)| == 0;
      ToggleNoMatch(alerts[1..], alertId);
      assert ToggleActive(alerts, alertId)[1..] == ToggleActive(alerts[1..], alertId);
    } else {
      ToggleKeepsActiveCount(alerts[1..], alertId);
      assert ToggleActive(alerts, alertId)[1..] == ToggleActive(alerts[1..], alertId);
    }
  }

  lemma {:induction false} ToggleKeepsDirections(alerts: seq<Alert>, alertId: string)
    ensures |Filter(ToggleActive(alerts, alertId), IsAbove)| == |Filter(alerts, IsAbove)|
    ensures |Filter(ToggleActive(alerts, alertId), IsBelow)| == |Filter(alerts, IsBelow)|
  {
    if alerts != [] {
      ToggleKeepsDirections(alerts[1..], alertId);
      assert ToggleActive(alerts, alertId)[1..] == ToggleActive(alerts[1..], alertId);
      assert ToggleActive(alerts, alertId)[0].direction == alerts[0].direction;
    }
  }

  lemma ToggleNoMatch(alerts: seq<Alert>, alertId: string)
    requires |Filter(alerts, (a: Alert) => a.id == alertId)| == 0
    ensures ToggleActive(alerts, alertId) == alerts
  {
    assert forall k :: 0 <= k < |alerts| ==> alerts[k].id != alertId;
  }

  /** `handleAddAlert`'s test: coin name, symbol and price must all be filled in. */
  predicate FormComplete(form: AlertForm)
  {
    form.coinName != "" && form.coinSymbol != "" && form.price != ""
  }

  /**
   * The alert `handleAddAlert` builds: active, with the coin id defaulting to
   * the lower-cased symbol. `id` is `Date.now().toString()`, `price` the
   * `parseFloat` of the price field, `now` the creation time.
   */
  function BuildAlert(form: AlertForm, id: string, price: real, now: int): (a: Alert)
    ensures a.isActive
    ensures a.coinId == if form.coinId != "" then form.coinId else ToLower(form.coinSymbol)
    ensures a.coinImage == if form.coinImage != "" then form.coinImage else ImageUrlPrefix + form.coinId + "/image"
    ensures a.coinName == form.coinName && a.coinSymbol == form.coinSymbol && a.direction == form.direction
    ensures a.id == id && a.price == price && a.createdAt == now
  {
    Alert(
      id,
      if form.coinId != "" then form.coinId else ToLower(form.coinSymbol),
      form.coinName,
      form.coinSymbol,
      if form.coinImage != "" then form.coinImage else ImageUrlPrefix + form.coinId + "/image",
      form.direction,
      price,
      true,
      now)
  }

  /** Only name, symbol and price are required: the id and image may stay empty, and the reset form never passes. */
  lemma FormCompleteRequiredFields(form: AlertForm, coinId: string, coinImage: string)
    ensures FormComplete(form.(coinId := coinId, coinImage := coinImage)) == FormComplete(form)
    ensures !FormComplete(EmptyForm)
  {
  }

  /**
   * What `handleAddAlert` builds from a form whose `coinId` is empty, as
   * every form on the page is: the id falls back to the lower-cased symbol,
   * and without an image the URL has an empty coin segment.
   */
  lemma BuildAlertFromDialog(form: AlertForm, id: string, price: real, now: int)
    requires form.coinId == ""
    ensures var a := BuildAlert(form, id, price, now);
      a.coinId == ToLower(form.coinSymbol)
      && a.coinImage == if form.coinImage != "" then form.coinImage else ImageUrlPrefix + "/image"
  {
    assert ImageUrlPrefix + form.coinId + "/image" == ImageUrlPrefix + "/image";
  }

  const MissingFieldsMessage := "Please fill in all required fields"

  class AlertsPage {
    var alerts: seq<Alert>
    var loading: bool
    var openAddDialog: bool
    var newAlert: AlertForm
    const store: Storage.Slot<seq<Alert>>
    const notifier: NC.NotificationProvider

    /** No handler writes `coinId`: the dialog has inputs for name, symbol, image, direction and price only. */
    ghost predicate CoinIdBlank()
      reads this
    {
      newAlert.coinId == ""
    }

    constructor (store: Storage.Slot<seq<Alert>>, notifier: NC.NotificationProvider)
      ensures this.store == store && this.notifier == notifier
      ensures alerts == [] && loading && !openAddDialog && newAlert == EmptyForm
      ensures CoinIdBlank()
    {
      this.store := store;
      this.notifier := notifier;
      alerts, loading, openAddDialog, newAlert := [], true, false, EmptyForm;
    }

    /** `loadAlerts`: saved alerts replace the state; loading ends either way. */
    method LoadAlerts()
      modifies this`alerts, this`loading
      ensures alerts == if store.value.Some? then store.value.value else old(alerts)
      ensures !loading
    {
      if store.value.Some? {
        alerts := store.value.value;
      }
      loading := false;
    }

    /** `saveAlerts`: the same list goes to storage and to the state. */
    method SaveAlerts(newAlerts: seq<Alert>)
      modifies this`alerts, store
      ensures alerts == newAlerts && store.value == Some(newAlerts)
    {
      store.value := Some(newAlerts);
      alerts := newAlerts;
    }

    /** `toggleAlert`: flips the alert(s) with that id and saves; a notification follows only when the id exists. */
    method ToggleAlert(alertId: string, noticeId: string)
      modifies this`alerts, store, notifier
      ensures alerts == ToggleActive(old(alerts), alertId) && store.value == Some(alerts)
      ensures var found := FindAlert(old(alerts), alertId);
        notifier.notifications == old(notifier.notifications) +
          if found.Some?
          then [NC.Notification(noticeId, "Alert for " + found.value.coinName + " " + ToggleStatus(found.value),
                                NC.InfoSeverity, NC.DefaultDuration)]
          else []
    {
      var alertToToggle := FindAlert(alerts, alertId);
      SaveAlerts(ToggleActive(alerts, alertId));
      if alertToToggle.Some? {
        var status := ToggleStatus(alertToToggle.value);
        notifier.ShowNotification("Alert for " + alertToToggle.value.coinName + " " + status,
                                  Some(NC.InfoSeverity), None, noticeId);
      }
    }

    /** `deleteAlert`: removes the alert(s) with that id and saves; a notification follows only when the id existed. */
    method DeleteAlert(alertId: string, noticeId: string)
      modifies this`alerts, store, notifier
      ensures alerts == DeleteById(old(alerts), alertId) && store.value == Some(alerts)
      ensures var found := FindAlert(old(alerts), alertId);
        notifier.notifications == old(notifier.notifications) +
          if found.Some?
          then [NC.Notification(noticeId, "Alert for " + found.value.coinName + " deleted",
                                NC.InfoSeverity, NC.DefaultDuration)]
          else []
    {
      var alertToDelete := FindAlert(alerts, alertId);
      SaveAlerts(DeleteById(alerts, alertId));
      if alertToDelete.Some? {
        notifier.ShowNotification("Alert for " + alertToDelete.value.coinName + " deleted",
                                  Some(NC.InfoSeverity), None, noticeId);
      }
    }

    /**
     * `handleAddAlert`: a complete form appends exactly one active alert,
     * closes the dialog, resets the form and reports success; an incomplete
     * one changes nothing but reports an error. `priceText` is how the parsed
     * price prints in the success message.
     */
    method HandleAddAlert(id: string, price: real, now: int, priceText: string, noticeId: string)
      modifies this`alerts, this`openAddDialog, this`newAlert, store, notifier
      ensures old(CoinIdBlank()) ==> CoinIdBlank()
      ensures old(CoinIdBlank()) && FormComplete(old(newAlert)) ==>
                alerts != [] && alerts[|alerts| - 1].coinId == ToLower(old(newAlert).coinSymbol)
                && (old(newAlert).coinImage == "" ==> alerts[|alerts| - 1].coinImage == ImageUrlPrefix + "/image")
      ensures FormComplete(old(newAlert)) ==>
                var a := BuildAlert(old(newAlert), id, price, now);
                alerts == old(alerts) + [a] && store.value == Some(alerts)
                && !openAddDialog && newAlert == EmptyForm
                && notifier.notifications == old(notifier.notifications) +
                     [NC.Notification(noticeId, "Alert created for " + a.coinName + " at $" + priceText,
                                      NC.SuccessSeverity, NC.DefaultDuration)]
      ensures !FormComplete(old(newAlert)) ==>
                alerts == old(alerts) && store.value == old(store.value)
                && openAddDialog == old(openAddDialog) && newAlert == old(newAlert)
                && notifier.notifications == old(notifier.notifications) +
                     [NC.Notification(noticeId, MissingFieldsMessage, NC.ErrorSeverity, NC.DefaultDuration)]
    {
      if FormComplete(newAlert) {
        if newAlert.coinId == "" {
          BuildAlertFromDialog(newAlert, id, price, now);
        }
        var alert := BuildAlert(newAlert, id, price, now);
        SaveAlerts(alerts + [alert]);
        openAddDialog := false;
        newAlert := EmptyForm;
        notifier.ShowNotification("Alert created for " + alert.coinName + " at $" + priceText,
                                  Some(NC.SuccessSeverity), None, noticeId);
      } else {
        notifier.ShowNotification(MissingFieldsMessage, Some(NC.ErrorSeverity), None, noticeId);
      }
    }

    /** `handleCloseDialog`: cancelling closes the dialog and resets the form; the alerts stay. */
    method HandleCloseDialog()
      modifies this`openAddDialog, this`newAlert
      ensures !openAddDialog && newAlert == EmptyForm
      ensures CoinIdBlank()
    {
      openAddDialog := false;
      newAlert := EmptyForm;
    }

    /** The "Add Alert" buttons open the dialog; the form keeps what it holds. */
    method OpenAddDialog()
      modifies this`openAddDialog
      ensures openAddDialog
    {
      openAddDialog := true;
    }

    /** The coin-name input. */
    method SetCoinName(text: string)
      modifies this`newAlert
      ensures newAlert == old(newAlert).(coinName := text)
      ensures old(CoinIdBlank()) ==> CoinIdBlank()
    {
      newAlert := newAlert.(coinName := text);
    }

    /** The coin-symbol input. */
    method SetCoinSymbol(text: string)
      modifies this`newAlert
      ensures newAlert == old(newAlert).(coinSymbol := text)
      ensures old(CoinIdBlank()) ==> CoinIdBlank()
    {
      newAlert := newAlert.(coinSymbol := text);
    }

    /** The image-URL input. */
    method SetCoinImage(text: string)
      modifies this`newAlert
      ensures newAlert == old(newAlert).(coinImage := text)
      ensures old(CoinIdBlank()) ==> CoinIdBlank()
    {
      newAlert := newAlert.(coinImage := text);
    }

    /** The above/below selector. */
    method SetDirection(d: Direction)
      modifies this`newAlert
      ensures newAlert == old(newAlert).(direction := d)
      ensures old(CoinIdBlank()) ==> CoinIdBlank()
    {
      newAlert := newAlert.(direction := d);
    }

    /** The target-price input, kept as typed. */
    method SetPrice(text: string)
      modifies this`newAlert
      ensures newAlert == old(newAlert).(price := text)
      ensures old(CoinIdBlank()) ==> CoinIdBlank()
    {
      newAlert := newAlert.(price := text);
    }
  }
}
