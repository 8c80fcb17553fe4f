/**
 * The request-scope interceptor: it holds the controller of the request in
 * progress and, before an audit is created, fills the identity fields that
 * are still unset from that controller and stamps the request's address.
 */
module Sweepers {
  import opened Values
  import opened Audits
  import Ambient
  import Configuration

  datatype Request = Request(ip: Value)

  /** A controller, as seen by the interceptor: what each method it
      responds to (public or private) returns, and the request it serves. */
  datatype Controller = Controller(methods: map<string, Value>, request: Option<Request>)

  /** `controller.send(name) if controller.respond_to?(name, true)`: the
      method's value when there is a controller that responds to a
      configured name, nil otherwise. */
  function Dispatch(controller: Option<Controller>, name: Option<string>): (r: Value)
    ensures controller.Some? && name.Some? && name.value in controller.value.methods ==>
      r == controller.value.methods[name.value]
    ensures controller.None? || name.None? || name.value !in controller.value.methods ==> r == Nil
  {
    match controller
    case None => Nil
    case Some(c) =>
      match name
      case None => Nil
      case Some(n) => if n in c.methods then c.methods[n] else Nil
  }

  /** `controller.try(:request).try(:ip)`. */
  function RemoteIp(controller: Option<Controller>): (r: Value)
    ensures controller.Some? && controller.value.request.Some? ==> r == controller.value.request.value.ip
    ensures controller.None? || controller.value.request.None? ==> r == Nil
  {
    match controller
    case None => Nil
    case Some(c) =>
      match c.request
      case None => Nil
      case Some(req) => req.ip
  }

  /** `before_create`: organization id, user and transaction id are filled
      from the controller only when falsy (`||=`); the remote address is
      always overwritten; nothing else changes. */
  function Sweep(f: AuditFields, controller: Option<Controller>, config: Configuration.Config): (r: AuditFields)
    ensures Truthy(f.organizationId) ==> r.organizationId == f.organizationId
    ensures !Truthy(f.organizationId) ==> r.organizationId == Dispatch(controller, config.organizationIdMethod)
    ensures Truthy(UserOf(f)) ==> r.userRef == f.userRef && r.username == f.username
    ensures !Truthy(UserOf(f)) ==>
      (UserOf(r) == Dispatch(controller, Some(config.currentUserMethod)) && ActorExclusive(r) &&
       (r.userRef.Some? <==> Dispatch(controller, Some(config.currentUserMethod)).Record?))
    ensures Truthy(f.transactionId) ==> r.transactionId == f.transactionId
    ensures !Truthy(f.transactionId) ==> r.transactionId == Dispatch(controller, Some(config.transactionIdMethod))
    ensures r.remoteAddress == RemoteIp(controller)
    ensures r.action == f.action && r.auditedChanges == f.auditedChanges && r.comment == f.comment
  {
    var withOrganization :=
      if Truthy(f.organizationId) then f
      else f.(organizationId := Dispatch(controller, config.organizationIdMethod));
    var withUser :=
      if Truthy(UserOf(withOrganization)) then withOrganization
      else AssignUser(withOrganization, Dispatch(controller, Some(config.currentUserMethod)));
    var withTransaction :=
      if Truthy(withUser.transactionId) then withUser
      else withUser.(transactionId := Dispatch(controller, Some(config.transactionIdMethod)));
    withTransaction.(remoteAddress := RemoteIp(controller))
  }

  /** Running the interceptor a second time changes nothing more. */
  lemma SweepIdempotent(f: AuditFields, controller: Option<Controller>, config: Configuration.Config)
    ensures Sweep(Sweep(f, controller, config), controller, config) == Sweep(f, controller, config)
  {
    var once := Sweep(f, controller, config);
    if !Truthy(UserOf(f)) {
      var u := Dispatch(controller, Some(config.currentUserMethod));
      AssignUserTwice(f.(organizationId := once.organizationId), u, u);
    }
  }

  /** Values that the ambient hooks put on the record win over the
      controller's: an audit created inside `with_transaction_id(t)` during
      a request keeps `t`, and likewise for the ambient user and
      organization id; the address still comes from the request. */
  lemma AmbientWinsOverController(f: AuditFields, slots: Ambient.Slots, controller: Option<Controller>,
                                  config: Configuration.Config)
    ensures var r := Sweep(AmbientHooks(f, slots), controller, config);
      && (Truthy(Ambient.Lookup(slots, Ambient.AuditedTransactionId)) ==>
            r.transactionId == Ambient.Lookup(slots, Ambient.AuditedTransactionId))
      && (Truthy(Ambient.Lookup(slots, Ambient.AuditedOrganizationId)) ==>
            r.organizationId == Ambient.Lookup(slots, Ambient.AuditedOrganizationId))
      && (Truthy(Ambient.Lookup(slots, Ambient.AuditedUser)) ==>
            UserOf(r) == Ambient.Lookup(slots, Ambient.AuditedUser))
      && r.remoteAddress == RemoteIp(controller)
  {
  }

  /** Without a controller (outside a request) the interceptor sets every
      falsy identity field to nil and the remote address to nil. */
  lemma SweepWithoutController(f: AuditFields, config: Configuration.Config)
    ensures var r := Sweep(f, None, config);
      && r.remoteAddress == Nil
      && (!Truthy(f.organizationId) ==> r.organizationId == Nil)
      && (!Truthy(f.transactionId) ==> r.transactionId == Nil)
      && (!Truthy(UserOf(f)) ==> UserOf(r) == Nil)
  {
  }

  /** A controller object. The interceptor keeps a reference to it, so what
      it sees at `before_create` is the controller's state at that moment,
      including any change made during the action (a sign-in, say). */
  class ControllerObject {
    var methods: map<string, Value>
    var request: Option<Request>

    constructor (methods: map<string, Value>, request: Option<Request>)
      ensures View() == Controller(methods, request)
    {
      this.methods := methods;
      this.request := request;
    }

    /** The controller's answers as they are now. */
    function View(): Controller
      reads this
    {
      Controller(methods, request)
    }
  }

  class Sweeper {
    /** The controller of the request in progress, if any. */
    var controller: ControllerObject?

    constructor ()
      ensures controller == null
    {
      controller := null;
    }

    /** `before`: remember the controller and let the request proceed. */
    method Before(c: ControllerObject) returns (proceed: bool)
      modifies this
      ensures controller == c
      ensures proceed
    {
      controller := c;
      proceed := true;
    }

    /** `after`: forget the controller. */
    method After(c: ControllerObject)
      modifies this
      ensures controller == null
    {
      controller := null;
    }

    /** The stored controller's current answers, or none outside a request. */
    function Live(): (r: Option<Controller>)
      reads this, controller
      ensures controller == null <==> r.None?
      ensures controller != null ==> r.value.methods == controller.methods && r.value.request == controller.request
    {
      if controller == null then None else Some(controller.View())
    }

    function OrganizationId(settings: Configuration.Settings): (r: Value)
      reads this, controller, settings
      ensures (controller != null && settings.organizationIdMethod.Some? &&
               settings.organizationIdMethod.value in controller.methods) ==>
        r == controller.methods[settings.organizationIdMethod.value]
      ensures (controller == null || settings.organizationIdMethod.None? ||
               settings.organizationIdMethod.value !in controller.methods) ==> r == Nil
    {
      Dispatch(Live(), settings.organizationIdMethod)
    }

    function TransactionId(settings: Configuration.Settings): (r: Value)
      reads this, controller, settings
      ensures controller != null && settings.transactionIdMethod in controller.methods ==>
        r == controller.methods[settings.transactionIdMethod]
      ensures controller == null || settings.transactionIdMethod !in controller.methods ==> r == Nil
    {
      Dispatch(Live(), Some(settings.transactionIdMethod))
    }

    function CurrentUser(settings: Configuration.Settings): (r: Value)
      reads this, controller, settings
      ensures controller != null && settings.currentUserMethod in controller.methods ==>
        r == controller.methods[settings.currentUserMethod]
      ensures controller == null || settings.currentUserMethod !in controller.methods ==> r == Nil
    {
      Dispatch(Live(), Some(settings.currentUserMethod))
    }

    /** `before_create`, in place on `audit`, asking the stored controller
        as it is at this moment. */
    method BeforeCreate(audit: Audit, settings: Configuration.Settings)
      modifies audit
      ensures audit.Fields() == Sweep(old(audit.Fields()), Live(), settings.Current())
    {
      if !Truthy(audit.organizationId) {
        audit.organizationId := OrganizationId(settings);
      }
      if !Truthy(audit.User()) {
        audit.SetUser(CurrentUser(settings));
      }
      if !Truthy(audit.transactionId) {
        audit.transactionId := TransactionId(settings);
      }
      audit.remoteAddress := RemoteIp(Live());
    }
  }

  /** A user who signs in after `before` ran is still the one a new audit
      records: the interceptor asks the controller when the audit is
      created, not when the request started. */
  method LateSignIn(settings: Configuration.Settings, user: Value) returns (recorded: Value)
    ensures recorded == user
  {
    var c := new ControllerObject(map[], None);
    var sweeper := new Sweeper();
    var _ := sweeper.Before(c);
    c.methods := c.methods[settings.currentUserMethod := user];
    var audit := new Audit(ActionCreate, None, Nil, Nil, Nil);
    sweeper.BeforeCreate(audit, settings);
    recorded := audit.User();
  }
}
