/** `DepartmentFormController` without the widget toolkit. Its form has no
    validation: whatever the two text fields hold becomes the department. */
module DepartmentController {
  import opened Wrappers
  import opened Entities
  import opened DataChange

  /** The form's two text fields. A text may be null, for example after the
      form was loaded from an entity whose name is null. */
  datatype DepartmentFields = DepartmentFields(idText: Option<string>, nameText: Option<string>)

  /** The controller's fields: the entity being edited, the service, the
      subscribed listeners in subscription order, and the form controls. */
  datatype Controller = Controller(
    entity: Option<Department>,
    service: Option<ServiceRef>,
    listeners: seq<Listener>,
    fields: DepartmentFields)

  /** `getFormData`: never rejects anything. The name is the text field's
      value as it stands, even null or blank; the id is whatever
      `tryParseToInt` makes of the id text. */
  function GetFormData(p: Platform, f: DepartmentFields): (d: Department)
    ensures d.name == f.nameText
    ensures d.id == p.tryParseToInt(f.idText)
  {
    Department(p.tryParseToInt(f.idText), f.nameText)
  }

  /** `updateFormData`: throws when there is no entity; otherwise the id field
      shows `String.valueOf(id)` and the name field the entity's name, and
      nothing else changes. */
  function UpdateFormData(c: Controller, p: Platform): (r: Result<Controller, string>)
    ensures r.Failure? <==> c.entity.None?
    ensures r.Failure? ==> r.error == "Entity was null"
    ensures r.Success? ==>
      && r.value.fields.nameText == c.entity.value.name
      && r.value.fields.idText == Some(ValueOf(p, c.entity.value.id))
      && r.value.entity == c.entity && r.value.service == c.service
      && r.value.listeners == c.listeners
  {
    if c.entity.None? then Failure("Entity was null")
    else
      var e := c.entity.value;
      Success(c.(fields := DepartmentFields(Some(ValueOf(p, e.id)), e.name)))
  }

  /** Reading back the fields `updateFormData` wrote gives the entity again:
      always for the name, and for the id whenever `tryParseToInt` undoes
      `String.valueOf` on it. */
  lemma UpdateThenGetFormDataRoundTrip(c: Controller, p: Platform)
    requires c.entity.Some?
    requires p.tryParseToInt(Some(ValueOf(p, c.entity.value.id))) == c.entity.value.id
    ensures UpdateFormData(c, p).Success?
    ensures GetFormData(p, UpdateFormData(c, p).value.fields) == c.entity.value
  {
  }

  /** Both guards of `onButtonSaveAction` pass. */
  predicate Ready(c: Controller) {
    c.entity.Some? && c.service.Some?
  }

  /** `onButtonSaveAction`. The entity is checked for null, then the service;
      either failure throws before anything else happens. Otherwise the form
      is read (which cannot fail), the entity is replaced, and `saveOrUpdate`
      is called once with it; if that throws `DbException` an alert is shown
      and nobody is notified, and if it returns every listener is notified, in
      subscription order, and the stage is closed. */
  function OnButtonSaveAction(c: Controller, p: Platform, db: DbOutcome): (r: Step<Controller, Department>)
    ensures c.entity.None? ==>
      r == Step(c, [], IllegalState("Entity was null"))
    ensures c.entity.Some? && c.service.None? ==>
      r == Step(c, [], IllegalState("Service was null"))
    ensures Ready(c) ==>
      && r.outcome != ErrorLabelsShown
      && |r.trace| >= 1
      && r.trace[0] == SaveOrUpdate(GetFormData(p, c.fields))
      && r.controller == c.(entity := Some(GetFormData(p, c.fields)))
    ensures Ready(c) && db.Saved? ==>
      && r.outcome == StageClosed
      && |r.trace| == 1 + |c.listeners|
      && forall i :: 0 <= i < |c.listeners| ==> r.trace[i + 1] == DataChanged(c.listeners[i])
    ensures Ready(c) && db.DbException? ==>
      && r.outcome == ErrorAlertShown(db.message)
      && |r.trace| == 1
  {
    if c.entity.None? then Step(c, [], IllegalState("Entity was null"))
    else if c.service.None? then Step(c, [], IllegalState("Service was null"))
    else
      var department := GetFormData(p, c.fields);
      var c' := c.(entity := Some(department));
      match db
      case DbException(message) =>
        Step(c', [SaveOrUpdate(department)], ErrorAlertShown(message))
      case Saved =>
        Step(c', [SaveOrUpdate(department)] + Notifications(c.listeners), StageClosed)
  }

  /** `saveOrUpdate` is called exactly once whenever both guards pass, and
      never otherwise; each listener is notified once per subscription, so a
      listener subscribed twice hears twice, when the save succeeded, and not
      at all otherwise. */
  lemma SaveCallsAndNotifications(c: Controller, p: Platform, db: DbOutcome, l: Listener)
    ensures SaveCalls(OnButtonSaveAction(c, p, db).trace) == (if Ready(c) then 1 else 0)
    ensures NotifyCount(OnButtonSaveAction(c, p, db).trace, l)
         == (if Ready(c) && db.Saved? then Occurrences(c.listeners, l) else 0)
  {
    var r := OnButtonSaveAction(c, p, db);
    if Ready(c) {
      var department := GetFormData(p, c.fields);
      SaveThenNotifyCounts(department, c.listeners, l);
      if db.Saved? {
        assert r.trace == [SaveOrUpdate(department)] + Notifications(c.listeners);
      } else {
        assert r.trace == [SaveOrUpdate(department)];
      }
    }
  }

  /** `subscribeDataChangeListener`: the listener joins the end of the list,
      behind every earlier subscriber (even a copy of itself), and nothing
      else about the controller changes. */
  function SubscribeDataChangeListener(c: Controller, l: Listener): (r: Controller)
    ensures |r.listeners| == |c.listeners| + 1
    ensures r.listeners[..|c.listeners|] == c.listeners && r.listeners[|c.listeners|] == l
    ensures r.entity == c.entity && r.service == c.service && r.fields == c.fields
  {
    c.(listeners := c.listeners + [l])
  }

  /** Subscribing changes nothing about a save except that a successful one
      ends with one more notification, of the new listener, after all the
      others; subscribing a listener that is already there adds a second
      notification rather than being ignored. */
  lemma SubscribeThenSave(c: Controller, p: Platform, db: DbOutcome, l: Listener)
    ensures OnButtonSaveAction(SubscribeDataChangeListener(c, l), p, db).outcome
         == OnButtonSaveAction(c, p, db).outcome
    ensures OnButtonSaveAction(SubscribeDataChangeListener(c, l), p, db).trace
         == OnButtonSaveAction(c, p, db).trace
            + (if Ready(c) && db.Saved? then [DataChanged(l)] else [])
    ensures NotifyCount(OnButtonSaveAction(SubscribeDataChangeListener(c, l), p, db).trace, l)
         == (if Ready(c) && db.Saved? then Occurrences(c.listeners, l) + 1 else 0)
  {
    var c2 := SubscribeDataChangeListener(c, l);
    assert c2.listeners == c.listeners + [l];
    SaveCallsAndNotifications(c2, p, db, l);
    if Ready(c) && db.Saved? {
      OccurrencesAppend(c.listeners, l, l);
      SubscribedListenerNotifiedLast<Department>(c.listeners, l, l);
      var d := GetFormData(p, c.fields);
      assert OnButtonSaveAction(c2, p, db).trace
          == [SaveOrUpdate(d)] + Notifications(c.listeners + [l]);
      assert OnButtonSaveAction(c, p, db).trace
          == [SaveOrUpdate(d)] + Notifications(c.listeners);
    }
  }
}
