/** The role-to-module permission table (`RolePermissionMapper`): each Keycloak
    role configured in the table grants full access to a list of application
    modules; a user reaches the union of the modules of their roles. The table
    is class-level state that roles can be added to, updated in and removed from. */
module Permissions {
  import opened Wrappers

  /** The application modules (`Module`), with their string values. */
  datatype Module = Geographic | ClimateData | CropData | UserManagement {
    function Value(): string {
      match this
      case Geographic => "geographic"
      case ClimateData => "climate_data"
      case CropData => "crop_data"
      case UserManagement => "user_management"
    }
  }

  type Table = map<string, seq<Module>>

  /** The table as the application ships it. */
  const DefaultTable: Table := map[
    "adminsuper" := [Geographic, UserManagement, CropData, ClimateData],
    "admin" := [Geographic, UserManagement, CropData, ClimateData],
    "webadminsimple" := [Geographic],
    "Geo Admin" := [Geographic]
  ]

  /** The modules the roles in `roles` reach, accumulated role by role. */
  function UserModules(table: Table, roles: seq<string>): set<Module>
    decreases |roles|
  {
    if |roles| == 0 then {}
    else
      var last := roles[|roles| - 1];
      UserModules(table, roles[..|roles| - 1]) + (if last in table then set m | m in table[last] else {})
  }

  /** A module is reachable exactly when some configured role of the user lists it. */
  lemma {:induction false} UserModulesMembers(table: Table, roles: seq<string>, m: Module)
    ensures m in UserModules(table, roles) <==> exists r :: r in roles && r in table && m in table[r]
    decreases |roles|
  {
    if |roles| > 0 {
      var prefix, last := roles[..|roles| - 1], roles[|roles| - 1];
      UserModulesMembers(table, prefix, m);
      assert roles == prefix + [last];
      if m in UserModules(table, roles) && m !in UserModules(table, prefix) {
        assert last in roles && last in table && m in table[last];
      }
      if exists r :: r in roles && r in table && m in table[r] {
        var r :| r in roles && r in table && m in table[r];
        if r != last {
          assert r in prefix;
        }
      }
    }
  }

  /** More roles never take access away. */
  lemma UserModulesGrow(table: Table, roles: seq<string>, more: seq<string>)
    requires forall r :: r in roles ==> r in more
    ensures UserModules(table, roles) <= UserModules(table, more)
  {
    forall m | m in UserModules(table, roles)
      ensures m in UserModules(table, more)
    {
      UserModulesMembers(table, roles, m);
      UserModulesMembers(table, more, m);
    }
  }

  /** Roles absent from the table add nothing. */
  lemma UnconfiguredRolesAddNothing(table: Table, roles: seq<string>, extra: seq<string>)
    requires forall r :: r in extra ==> r !in table
    ensures UserModules(table, roles + extra) == UserModules(table, roles)
  {
    forall m
      ensures m in UserModules(table, roles + extra) <==> m in UserModules(table, roles)
    {
      UserModulesMembers(table, roles + extra, m);
      UserModulesMembers(table, roles, m);
      if exists r :: r in roles + extra && r in table && m in table[r] {
        var r :| r in roles + extra && r in table && m in table[r];
        assert r in roles;
      }
    }
  }

  /** In the shipped table a `webadminsimple` user reaches only the geographic
      module, and an `admin` reaches every module. */
  lemma DefaultTableAccess()
    ensures UserModules(DefaultTable, ["webadminsimple"]) == {Geographic}
    ensures UserModules(DefaultTable, ["admin"]) == {Geographic, ClimateData, CropData, UserManagement}
    ensures UserModules(DefaultTable, ["guest", "Geo Admin"]) == {Geographic}
  {
    assert ["guest", "Geo Admin"][..1] == ["guest"];
    assert UserModules(DefaultTable, ["guest"]) == {};
  }

  /** The report of `sync_with_keycloak_roles`. Keycloak role names are optional
      because a role without a `name` key contributes `None`. */
  datatype SyncReport = SyncReport(
    synced: set<Option<string>>,
    missingInConfig: set<Option<string>>,
    missingInKeycloak: set<Option<string>>,
    totalKeycloakRoles: nat,
    totalConfiguredRoles: nat)

  class RolePermissionMapper {
    /** `ROLE_MODULES` */
    var table: Table

    constructor ()
      ensures table == DefaultTable
    {
      table := DefaultTable;
    }

    /** `get_user_modules` */
    method GetUserModules(userRoles: seq<string>) returns (modules: set<Module>)
      ensures modules == UserModules(table, userRoles)
      ensures forall m :: m in modules <==> exists r :: r in userRoles && r in table && m in table[r]
    {
      modules := {};
      var i := 0;
      while i < |userRoles|
        invariant 0 <= i <= |userRoles|
        invariant modules == UserModules(table, userRoles[..i])
      {
        var role := userRoles[i];
        assert userRoles[..i + 1][..i] == userRoles[..i];
        if role in table {
          modules := modules + set m | m in table[role];
        }
        i := i + 1;
      }
      assert userRoles[..i] == userRoles;
      forall m
        ensures m in modules <==> exists r :: r in userRoles && r in table && m in table[r]
      {
        UserModulesMembers(table, userRoles, m);
      }
    }

    /** `user_has_module_access` */
    method UserHasModuleAccess(userRoles: seq<string>, target: Module) returns (allowed: bool)
      ensures allowed <==> exists r :: r in userRoles && r in table && target in table[r]
    {
      var modules := GetUserModules(userRoles);
      allowed := target in modules;
    }

    /** `get_role_modules`: the role's modules, or none for an unconfigured role. */
    function GetRoleModules(role: string): (modules: seq<Module>)
      reads this
      ensures role in table ==> modules == table[role]
      ensures role !in table ==> modules == []
    {
      if role in table then table[role] else []
    }

    /** `add_role`: inserts or overwrites the entry; always succeeds. */
    method AddRole(roleName: string, modules: seq<Module>) returns (ok: bool)
      modifies this
      ensures ok
      ensures table == old(table)[roleName := modules]
      ensures forall r :: r != roleName ==> (r in table <==> r in old(table))
    {
      table := table[roleName := modules];
      ok := true;
    }

    /** `update_role`: only an existing entry is changed. */
    method UpdateRole(roleName: string, modules: seq<Module>) returns (ok: bool)
      modifies this
      ensures ok <==> roleName in old(table)
      ensures table == if ok then old(table)[roleName := modules] else old(table)
    {
      if roleName in table {
        table := table[roleName := modules];
        ok := true;
      } else {
        ok := false;
      }
    }

    /** `remove_role`: only an existing entry is deleted. */
    method RemoveRole(roleName: string) returns (ok: bool)
      modifies this
      ensures ok <==> roleName in old(table)
      ensures table == if ok then old(table) - {roleName} else old(table)
      ensures roleName !in table
    {
      if roleName in table {
        table := table - {roleName};
        ok := true;
      } else {
        ok := false;
      }
    }

    /** `sync_with_keycloak_roles`: K = the Keycloak role names, C = the
        configured roles. The three reported sets split K ∪ C. */
    function SyncWithKeycloakRoles(keycloakRoles: seq<Option<string>>): (report: SyncReport)
      reads this
      ensures var k := set n | n in keycloakRoles;
              var c := set r | r in table :: Some(r);
              && report.synced + report.missingInConfig + report.missingInKeycloak == k + c
              && report.synced !! report.missingInConfig
              && report.synced !! report.missingInKeycloak
              && report.missingInConfig !! report.missingInKeycloak
              && report.synced + report.missingInConfig == k
              && report.synced + report.missingInKeycloak == c
              && report.totalKeycloakRoles == |k| && report.totalConfiguredRoles == |table|
      ensures None !in report.synced && None !in report.missingInKeycloak
    {
      var k := set n | n in keycloakRoles;
      var c := set r | r in table :: Some(r);
      SomeKeysCount(table);
      SyncReport(k * c, k - c, c - k, |k|, |c|)
    }
  }

  /** Wrapping the configured role names keeps their number. */
  lemma SomeKeysCount(table: Table)
    ensures |set r | r in table :: Some(r)| == |table|
  {
    var keys := table.Keys;
    var wrapped := set r | r in keys :: Some(r);
    if keys != {} {
      var r :| r in keys;
      var rest := table - {r};
      SomeKeysCount(rest);
      assert wrapped == (set x | x in rest :: Some(x)) + {Some(r)};
    }
  }
}
