/**
 * The role-to-page permission table (src/roleConfig.js) and the check the
 * navigation and route guards use.
 *
 * The table is a plain JavaScript object looked up by the role name. Such
 * an object also answers the names it inherits from `Object.prototype`
 * (`constructor`, `toString`, ...), with a function or an object that has
 * no `includes` method: `HasPermissionAsWritten` models that lookup as
 * written, and `HasPermission` the check as intended.
 */
module RoleConfig {
  import opened Common

  const AdminRoutes: seq<string> := [
    "partner-setup", "one-time-billing", "monthly-billing-import", "bulk-one-time-billing",
    "reporting", "billing-items", "generate-invoice", "unfinalized-invoices",
    "finalized-invoices", "user-management"
  ]

  const BillingManagerRoutes: seq<string> := [
    "partner-setup", "one-time-billing", "monthly-billing-import", "bulk-one-time-billing",
    "reporting", "billing-items", "generate-invoice", "unfinalized-invoices",
    "finalized-invoices"
  ]

  const UserRoutes: seq<string> := ["one-time-billing"]

  /** `ROLE_PERMISSIONS[role]` for the three roles the table defines. */
  function Routes(role: string): (r: Option<seq<string>>)
    ensures r.Some? <==> role == "admin" || role == "billing_manager" || role == "user"
  {
    if role == "admin" then Some(AdminRoutes)
    else if role == "billing_manager" then Some(BillingManagerRoutes)
    else if role == "user" then Some(UserRoutes)
    else None
  }

  /** `hasPermission(role, route)` as intended: true exactly when the role
      is one of the table's and lists the route; an unknown or missing role
      is refused. */
  function HasPermission(role: Option<string>, route: string): (b: bool)
    ensures b <==> role.Some? && Routes(role.value).Some? && route in Routes(role.value).value
  {
    role.Some? && Routes(role.value).Some? && route in Routes(role.value).value
  }

  /** Every page a billing manager may open, an admin may open too. */
  lemma BillingManagerWithinAdmin(route: string)
    ensures HasPermission(Some("billing_manager"), route) ==> HasPermission(Some("admin"), route)
  {
    assert BillingManagerRoutes == AdminRoutes[..9];
  }

  /** User management is the admin's alone. */
  lemma UserManagementAdminOnly(role: Option<string>)
    ensures HasPermission(role, "user-management") <==> role == Some("admin")
  {
    if role.Some? && role.value == "billing_manager" {
      assert forall i :: 0 <= i < |BillingManagerRoutes| ==> BillingManagerRoutes[i] != "user-management";
    }
    if role == Some("admin") {
      assert AdminRoutes[9] == "user-management";
    }
  }

  /** A plain user may open the one-time billing page and nothing else. */
  lemma UserOnlyOneTimeBilling(route: string)
    ensures HasPermission(Some("user"), route) <==> route == "one-time-billing"
  {
  }

  /** Without a role nothing is allowed. */
  lemma NoRoleNoPermission(route: string)
    ensures !HasPermission(None, route)
  {
  }

  // ---- the lookup as written ----

  /** The names every plain object inherits from `Object.prototype`. */
  const InheritedNames: seq<string> := [
    "constructor", "hasOwnProperty", "isPrototypeOf", "propertyIsEnumerable",
    "toLocaleString", "toString", "valueOf", "__proto__",
    "__defineGetter__", "__defineSetter__", "__lookupGetter__", "__lookupSetter__"
  ]

  /** What `ROLE_PERMISSIONS[role]?.includes(route) || false` does: a role
      of the table answers as intended, a missing or unknown role gives
      false, and an inherited name finds a value that is not nullish but
      has no `includes`, so the call throws a TypeError. */
  function HasPermissionAsWritten(role: Option<string>, route: string): (r: Result<bool, string>)
    ensures role.Some? && role.value in InheritedNames ==> r.Err?
    ensures !(role.Some? && role.value in InheritedNames) ==> r == Ok(HasPermission(role, route))
  {
    if role.Some? && Routes(role.value).Some? then Ok(route in Routes(role.value).value)
    else if role.Some? && role.value in InheritedNames then Err("TypeError: ROLE_PERMISSIONS[userRole]?.includes is not a function")
    else Ok(false)
  }

  /** The role name `constructor` makes the check throw instead of
      refusing. */
  lemma InheritedRoleNameThrows()
    ensures HasPermissionAsWritten(Some("constructor"), "reporting").Err?
    ensures !HasPermission(Some("constructor"), "reporting")
  {
    assert InheritedNames[0] == "constructor";
  }
}
