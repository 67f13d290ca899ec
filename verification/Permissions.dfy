/** The permission vocabulary: the catalog, the older spellings, and what makes two spellings equal. */
module Permissions {

  type Code = string

  type Role = string

  const PERMISSIONS: set<Code> := {
    "servers.view", "servers.create", "servers.update", "servers.delete", "servers.test_connection",
    "servers.connect", "servers.direct_ssh", "servers.gateway_ssh", "servers.register_via_api",
    "servers.use_template", "servers.assign_to_group", "servers.provide_credentials", "servers.approve_registration",
    "access.request", "access.approve", "access.reject", "access.revoke", "access.extend",
    "access.ssh_only", "access.limited_sudo", "access.full_sudo",
    "sessions.view_own", "sessions.view_group", "sessions.terminate", "recordings.view_own", "recordings.view_group",
    "commands.view_own", "commands.view_group", "audit.view_group", "audit.export",
    "group.members.view", "group.members.manage", "group.servers.manage", "group.permissions.manage",
    "alerts.view", "alerts.manage", "secrets.use", "policies.view"
  }

  const PERMISSION_ALIASES: map<Code, Code> := map[
    "servers.edit" := "servers.update",
    "access.connect" := "servers.connect",
    "access.connect_direct" := "servers.direct_ssh",
    "access.connect_gateway" := "servers.gateway_ssh",
    "groups.manage_members" := "group.members.manage",
    "users.manage_group" := "group.members.manage",
    "users.view_group" := "group.members.view",
    "groups.manage_servers" := "group.servers.manage",
    "groups.manage_permissions" := "group.permissions.manage"
  ]

  function CanonicalPermission(aliases: map<Code, Code>, code: Code): Code {
    if code in aliases then aliases[code] else code
  }

  function EquivalentPermissions(aliases: map<Code, Code>, code: Code): set<Code> {
    var canonical := CanonicalPermission(aliases, code);
    (set alias | alias in aliases && aliases[alias] == canonical) + {canonical}
  }

  /** No alias points at another alias. */
  predicate Flat(aliases: map<Code, Code>) {
    forall alias | alias in aliases :: aliases[alias] !in aliases
  }

  function NormalizedRole(role: Role): Role {
    if role == "approver" then "operator" else role
  }

  /** In a flat alias table the equivalent spellings of a code are exactly the codes with its canonical form. */
  lemma EquivalentIsCanonicalClass(aliases: map<Code, Code>, code: Code, other: Code)
    requires Flat(aliases)
    ensures other in EquivalentPermissions(aliases, code)
            <==> CanonicalPermission(aliases, other) == CanonicalPermission(aliases, code)
  {
  }

  lemma ShippedAliasesAreFlat()
    ensures Flat(PERMISSION_ALIASES)
  {
  }
}
