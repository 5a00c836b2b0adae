/** `SellerFormController` without the widget toolkit: the controller's
    state is a record, and a button press is a function from the old state
    (plus what the database does) to the new state, the calls made, and the
    outcome. */
module SellerController {
  import opened Wrappers
  import opened JavaString
  import opened Entities
  import opened SellerForm
  import opened DataChange

  /** The controller's fields: the entity being edited, the two services,
      the subscribed listeners in subscription order, and the form controls. */
  datatype Controller = Controller(
    entity: Option<Seller>,
    sellerService: Option<ServiceRef>,
    departmentService: Option<ServiceRef>,
    listeners: seq<Listener>,
    fields: SellerFields,
    labels: SellerLabels)

  /** Both guards of `onButtonSaveAction` pass. */
  predicate Ready(c: Controller) {
    c.entity.Some? && c.sellerService.Some?
  }

  /** `onButtonSaveAction`. The entity is checked for null, then the service;
      either failure throws before anything else happens. Otherwise the form
      is read: a validation failure fills in the error labels and leaves the
      entity as it was, since the assignment to it never completes. A valid
      form replaces the entity, then `saveOrUpdate` is called once with it;
      if that throws `DbException` an alert is shown and nobody is notified,
      and if it returns every listener is notified, in subscription order,
      and the stage is closed. */
  function OnButtonSaveAction(c: Controller, p: Platform, db: DbOutcome): (r: Step<Controller, Seller>)
    ensures c.entity.None? ==>
      r == Step(c, [], IllegalState("Entity was null"))
    ensures c.entity.Some? && c.sellerService.None? ==>
      r == Step(c, [], IllegalState("Service was null"))
    ensures Ready(c) && AnyFieldMissing(c.fields) ==>
      && r.trace == []
      && r.outcome == ErrorLabelsShown
      && r.controller == c.(labels := SetErrorMessagesAsWritten(c.labels, ValidationErrors(c.fields)))
    ensures Ready(c) && !AnyFieldMissing(c.fields) ==>
      && |r.trace| >= 1
      && r.trace[0] == SaveOrUpdate(GetFormData(p, c.fields).value)
      && r.controller == c.(entity := Some(GetFormData(p, c.fields).value))
    ensures Ready(c) && !AnyFieldMissing(c.fields) && db.Saved? ==>
      && r.outcome == StageClosed
      && |r.trace| == 1 + |c.listeners|
      && forall i :: 0 <= i < |c.listeners| ==> r.trace[i + 1] == DataChanged(c.listeners[i])
    ensures Ready(c) && !AnyFieldMissing(c.fields) && db.DbException? ==>
      && r.outcome == ErrorAlertShown(db.message)
      && |r.trace| == 1
  {
    if c.entity.None? then Step(c, [], IllegalState("Entity was null"))
    else if c.sellerService.None? then Step(c, [], IllegalState("Service was null"))
    else match GetFormData(p, c.fields)
      case Failure(errors) =>
        Step(c.(labels := SetErrorMessagesAsWritten(c.labels, errors)), [], ErrorLabelsShown)
      case Success(seller) =>
        var c' := c.(entity := Some(seller));
        match db
        case DbException(message) =>
          Step(c', [SaveOrUpdate(seller)], ErrorAlertShown(message))
        case Saved =>
          Step(c', [SaveOrUpdate(seller)] + Notifications(c.listeners), StageClosed)
  }

  /** `saveOrUpdate` is called exactly once when both guards pass and the form
      is valid, whatever the database then does, and never otherwise; each
      listener is notified once per subscription when the save succeeded, and
      not at all otherwise. */
  lemma SaveCallsAndNotifications(c: Controller, p: Platform, db: DbOutcome, l: Listener)
    ensures SaveCalls(OnButtonSaveAction(c, p, db).trace)
         == (if Ready(c) && !AnyFieldMissing(c.fields) then 1 else 0)
    ensures NotifyCount(OnButtonSaveAction(c, p, db).trace, l)
         == (if Ready(c) && !AnyFieldMissing(c.fields) && db.Saved? then Occurrences(c.listeners, l) else 0)
  {
    var r := OnButtonSaveAction(c, p, db);
    if Ready(c) && !AnyFieldMissing(c.fields) {
      var seller := GetFormData(p, c.fields).value;
      SaveThenNotifyCounts(seller, c.listeners, l);
      if db.Saved? {
        assert r.trace == [SaveOrUpdate(seller)] + Notifications(c.listeners);
      } else {
        assert r.trace == [SaveOrUpdate(seller)];
      }
    }
  }

  /** `subscribeDataChangeListener`: the listener joins the end of the list,
      behind every earlier subscriber (even a copy of itself), and nothing
      else about the controller changes. */
  function SubscribeDataChangeListener(c: Controller, l: Listener): (r: Controller)
    ensures |r.listeners| == |c.listeners| + 1
    ensures r.listeners[..|c.listeners|] == c.listeners && r.listeners[|c.listeners|] == l
    ensures r.entity == c.entity && r.sellerService == c.sellerService
    ensures r.departmentService == c.departmentService
    ensures r.fields == c.fields && r.labels == c.labels
  {
    c.(listeners := c.listeners + [l])
  }

  /** Subscribing changes nothing about a save except that a successful one
      ends with one more notification, of the new listener, after all the
      others. */
  lemma SubscribeThenSave(c: Controller, p: Platform, db: DbOutcome, l: Listener)
    ensures OnButtonSaveAction(SubscribeDataChangeListener(c, l), p, db).outcome
         == OnButtonSaveAction(c, p, db).outcome
    ensures OnButtonSaveAction(SubscribeDataChangeListener(c, l), p, db).trace
         == OnButtonSaveAction(c, p, db).trace
            + (if Ready(c) && !AnyFieldMissing(c.fields) && db.Saved? then [DataChanged(l)] else [])
  {
    assert SubscribeDataChangeListener(c, l) == c.(listeners := c.listeners + [l]);
    if Ready(c) && !AnyFieldMissing(c.fields) && db.Saved? {
      SubscribedListenerNotifiedLast<Seller>(c.listeners, l, l);
    }
  }

  /** `updateFormData`: throws when there is no entity; otherwise loads the
      entity into the controls and touches nothing else. */
  function UpdateFormData(c: Controller, p: Platform): (r: Result<Controller, string>)
    ensures r.Failure? <==> c.entity.None?
    ensures r.Failure? ==> r.error == "Entity was null"
    ensures r.Success? ==> r.value == c.(fields := LoadFields(p, c.entity.value, c.fields))
  {
    if c.entity.None? then Failure("Entity was null")
    else Success(c.(fields := LoadFields(p, c.entity.value, c.fields)))
  }

  /** Loading a complete entity into the form and pressing save without
      editing stores that same entity, as long as the platform helpers invert
      each other on its values. */
  lemma UpdateThenSaveStoresEntity(c: Controller, p: Platform, db: DbOutcome)
    requires c.entity.Some? && c.sellerService.Some?
    requires c.entity.value.name.Some? && !IsBlank(c.entity.value.name.value)
    requires c.entity.value.email.Some? && !IsBlank(c.entity.value.email.value)
    requires c.entity.value.birthDate.Some? && c.entity.value.department.Some?
    requires !IsBlank(p.formatSalary(c.entity.value.baseSalary))
    requires p.tryParseToInt(Some(ValueOf(p, c.entity.value.id))) == c.entity.value.id
    requires p.tryParseToDouble(Some(p.formatSalary(c.entity.value.baseSalary))) == c.entity.value.baseSalary
    requires p.startOfDay(p.toLocalDate(c.entity.value.birthDate.value)) == c.entity.value.birthDate.value
    ensures UpdateFormData(c, p).Success?
    ensures OnButtonSaveAction(UpdateFormData(c, p).value, p, db).trace[0] == SaveOrUpdate(c.entity.value)
    ensures OnButtonSaveAction(UpdateFormData(c, p).value, p, db).controller.entity == c.entity
  {
    var e := c.entity.value;
    LoadThenExtractRoundTrip(p, e, c.fields);
  }
}
