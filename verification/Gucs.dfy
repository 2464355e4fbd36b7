/** The admin and tenant settings as the library handles them. */
module Gucs {

  datatype Option<+T> = None | Some(value: T)

  /** The values of the two settings of one session, or of one context. */
  datatype ContextGucs = ContextGucs(isAdmin: string, currentTenant: string)

  const CLEARED := ContextGucs("", "")
  const ADMIN_GUCS := ContextGucs("true", "")

  /** The values `tenant_context()` sets for the tenant whose key renders as `id`. */
  function ForTenant(id: string): ContextGucs {
    ContextGucs("false", id)
  }

  /** What a write of `values` leaves on a session; no context clears both settings. */
  function OnSession(values: Option<ContextGucs>): ContextGucs {
    if values.None? then CLEARED else values.value
  }

  const ADMIN_VAR := "rls.is_admin"
  const TENANT_VAR := "rls.current_tenant"

  /** The value of a setting; an unset one is as good as an empty one. */
  function ValueIn(settings: map<string, string>, name: string): string {
    if name in settings then settings[name] else ""
  }

  /** What `get_guc` reads: an empty setting reads as `None`. */
  function ReadGuc(v: string): Option<string> {
    if v == "" then None else Some(v)
  }

  /** What `restore_guc` writes for it. */
  function RestoredGuc(v: Option<string>): string {
    if v.None? then "" else v.value
  }

  /** What the library believes a session holds. */
  datatype Tracked = Unknown | Known(gucs: Option<ContextGucs>)

  /** A belief is sound when it is no belief, or the session really shows it. */
  predicate Sound(belief: Tracked, shown: ContextGucs) {
    belief.Known? ==> OnSession(belief.gucs) == shown
  }
}
