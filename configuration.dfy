/**
 * The process-wide settings of the `Audited` module: read/write
 * accessors with their default values.
 */
module Configuration {
  import opened Values

  /** The names of the columns never audited by default. */
  const DefaultIgnoredAttributes: seq<string> :=
    ["lock_version", "created_at", "updated_at", "created_on", "updated_on"]

  const DefaultCurrentUserMethod: string := "current_user"
  const DefaultTransactionIdMethod: string := "transaction_id"

  /** A snapshot of every setting. */
  datatype Config = Config(
    ignoredAttributes: seq<string>,
    currentUserMethod: string,
    transactionIdMethod: string,
    organizationIdMethod: Option<string>,
    auditClass: Option<string>,
    restoring: bool)

  class Settings {
    var ignoredAttributes: seq<string>
    var currentUserMethod: string
    var transactionIdMethod: string
    /** Read by the request interceptor; no default is assigned to it. */
    var organizationIdMethod: Option<string>
    /** The audit class; no default is assigned to it. */
    var auditClass: Option<string>
    /** When set, create actions are recorded as restore actions. */
    var restoring: bool

    /** The settings as the module body leaves them. */
    constructor ()
      ensures ignoredAttributes == ["lock_version", "created_at", "updated_at", "created_on", "updated_on"]
      ensures currentUserMethod == "current_user"
      ensures transactionIdMethod == "transaction_id"
      ensures organizationIdMethod == None && auditClass == None
      ensures restoring == false
    {
      ignoredAttributes := DefaultIgnoredAttributes;
      currentUserMethod := DefaultCurrentUserMethod;
      transactionIdMethod := DefaultTransactionIdMethod;
      organizationIdMethod := None;
      auditClass := None;
      restoring := false;
    }

    function Current(): Config
      reads this
    {
      Config(ignoredAttributes, currentUserMethod, transactionIdMethod,
             organizationIdMethod, auditClass, restoring)
    }

    method SetIgnoredAttributes(names: seq<string>)
      modifies this
      ensures Current() == old(Current()).(ignoredAttributes := names)
    {
      ignoredAttributes := names;
    }

    method SetCurrentUserMethod(name: string)
      modifies this
      ensures Current() == old(Current()).(currentUserMethod := name)
    {
      currentUserMethod := name;
    }

    method SetTransactionIdMethod(name: string)
      modifies this
      ensures Current() == old(Current()).(transactionIdMethod := name)
    {
      transactionIdMethod := name;
    }

    method SetOrganizationIdMethod(name: string)
      modifies this
      ensures Current() == old(Current()).(organizationIdMethod := Some(name))
    {
      organizationIdMethod := Some(name);
    }

    method SetAuditClass(name: string)
      modifies this
      ensures Current() == old(Current()).(auditClass := Some(name))
    {
      auditClass := Some(name);
    }

    method SetRestoring(on: bool)
      modifies this
      ensures Current() == old(Current()).(restoring := on)
    {
      restoring := on;
    }
  }
}
