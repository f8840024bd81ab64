/** The logged-in user built from Keycloak user data (`User`): its id and
    username are picked from several optional claims, and its roles are merged
    from six places in the data, without duplicates and without Keycloak's own
    system roles.

    The user data is JSON. A JSON object is its list of entries in the order
    written; a key looked up gets the last value written for it, as in the dict
    json.loads builds. Numbers are integers. A Python exception raised while
    reading the data is the outcome `Raised`. */
module UserModel {
  import opened Wrappers
  import opened Text

  datatype Json =
    | Null
    | Bool(b: bool)
    | Num(n: int)
    | Str(s: string)
    | List(items: seq<Json>)
    | Obj(entries: seq<(string, Json)>)

  datatype Outcome<+T> = Returned(value: T) | Raised

  /** Python's truth value. */
  predicate Truthy(v: Json) {
    match v
    case Null => false
    case Bool(b) => b
    case Num(n) => n != 0
    case Str(s) => s != ""
    case List(items) => items != []
    case Obj(entries) => entries != []
  }

  /** Entry `i` has the key and no later entry does. */
  predicate LastEntryAt(entries: seq<(string, Json)>, key: string, i: int) {
    0 <= i < |entries| && entries[i].0 == key
    && forall j :: i < j < |entries| ==> entries[j].0 != key
  }

  /** `d.get(key)`. When the JSON text repeats a key, the dict keeps the last
      value written for it. */
  function Get(entries: seq<(string, Json)>, key: string): (r: Option<Json>)
    ensures r.Some? ==> (key, r.value) in entries
    ensures r.Some? ==> exists i :: LastEntryAt(entries, key, i) && entries[i].1 == r.value
    ensures r.None? ==> forall e :: e in entries ==> e.0 != key
    decreases |entries|
  {
    if |entries| == 0 then None
    else if entries[|entries| - 1].0 == key then
      assert LastEntryAt(entries, key, |entries| - 1);
      Some(entries[|entries| - 1].1)
    else
      var front := entries[..|entries| - 1];
      var r := Get(front, key);
      assert forall e :: e in entries ==> e in front || e == entries[|entries| - 1];
      if r.Some? then
        var i :| LastEntryAt(front, key, i) && front[i].1 == r.value;
        assert LastEntryAt(entries, key, i);
        r
      else r
  }

  /** `d.get(key, default)` */
  function GetOr(entries: seq<(string, Json)>, key: string, default: Json): Json {
    Get(entries, key).GetOr(default)
  }

  /** The keys of an object in order (what iterating over a dict yields). */
  function Keys(entries: seq<(string, Json)>): (keys: seq<Json>)
    ensures |keys| == |entries|
    ensures forall i :: 0 <= i < |keys| ==> keys[i] == Str(entries[i].0)
  {
    if |entries| == 0 then [] else [Str(entries[0].0)] + Keys(entries[1..])
  }

  /** Python's `==` on the values that can be roles: a bool equals the integer
      0 or 1. Lists and objects never survive as roles, so structural equality
      is enough for them. */
  predicate PyEq(a: Json, b: Json) {
    match (a, b)
    case (Bool(x), Num(n)) => n == (if x then 1 else 0)
    case (Num(n), Bool(x)) => n == (if x then 1 else 0)
    case _ => a == b
  }

  lemma PyEqSymmetric(a: Json, b: Json)
    ensures PyEq(a, b) == PyEq(b, a)
  {
  }

  /** Python's `x in xs` for a list. */
  predicate PyIn(x: Json, xs: seq<Json>) {
    exists i :: 0 <= i < |xs| && PyEq(x, xs[i])
  }

  // ---------------------------------------------------------------------------
  // id and username

  /** Python's `vals[0] or vals[1] or ...`: the first truthy value, or the last
      value when none is truthy. */
  function OrChain(vals: seq<Json>): (r: Json)
    requires |vals| > 0
    ensures Truthy(r) ==> exists i :: 0 <= i < |vals| && r == vals[i] && forall j :: 0 <= j < i ==> !Truthy(vals[j])
    ensures !Truthy(r) ==> r == vals[|vals| - 1] && forall j :: 0 <= j < |vals| ==> !Truthy(vals[j])
  {
    if |vals| == 1 || Truthy(vals[0]) then vals[0]
    else
      var rest := OrChain(vals[1..]);
      assert forall j :: 1 <= j < |vals| ==> vals[j] == vals[1..][j - 1];
      rest
  }

  /** The user's id: `sub`, else `id`, else `preferred_username`, else `username`. */
  function UserId(userData: seq<(string, Json)>): Json {
    OrChain([GetOr(userData, "sub", Null), GetOr(userData, "id", Null),
             GetOr(userData, "preferred_username", Null), GetOr(userData, "username", Null)])
  }

  /** `email.split('@')[0]` */
  function EmailPrefix(email: string): (r: string)
    ensures '@' !in r
    ensures StartsWith(email, r)
    ensures |r| < |email| ==> email[|r|] == '@'
  {
    var at := IndexOf(email, '@');
    assert forall k :: 0 <= k < at ==> email[..at][k] == email[k];
    email[..at]
  }

  /** The username: `preferred_username`, else `username`, else the part of
      `email` before the first '@'. Splitting raises when `email` is present
      but not a string. */
  function Username(userData: seq<(string, Json)>): Outcome<Json> {
    var preferred, plain := GetOr(userData, "preferred_username", Null), GetOr(userData, "username", Null);
    if Truthy(preferred) then Returned(preferred)
    else if Truthy(plain) then Returned(plain)
    else match GetOr(userData, "email", Str(""))
      case Str(email) => Returned(Str(EmailPrefix(email)))
      case _ => Raised
  }

  // ---------------------------------------------------------------------------
  // Role sources

  const ResourceClients: seq<string> := ["account", "realm-management", "aclimate_admin", "admin-cli"]

  const SystemRoles: set<string> := {"offline_access", "uma_authorization", "default-roles-aclimate",
                                     "account-manage-account", "account-view-profile", "web-origins"}

  /** What `list.extend(v)` appends: a list's items, a string's characters, an
      object's keys; extending by a number or a bool raises. */
  function Items(v: Json): Outcome<seq<Json>> {
    match v
    case List(items) => Returned(items)
    case Str(s) => Returned(seq(|s|, i requires 0 <= i < |s| => Str([s[i]])))
    case Obj(entries) => Returned(Keys(entries))
    case _ => Raised
  }

  /** The roles of `clients` in `resource_access`, in client order. Each client
      entry must be an object; its truthy `roles` value is appended. */
  function ClientRolesOf(resourceAccess: seq<(string, Json)>, clients: seq<string>): Outcome<seq<Json>>
    decreases |clients|
  {
    if |clients| == 0 then Returned([])
    else match ClientRolesOf(resourceAccess, clients[..|clients| - 1])
      case Raised => Raised
      case Returned(earlier) =>
        match GetOr(resourceAccess, clients[|clients| - 1], Obj([]))
        case Obj(clientData) =>
          var clientRoles := GetOr(clientData, "roles", List([]));
          if !Truthy(clientRoles) then Returned(earlier)
          else (match Items(clientRoles)
                case Returned(items) => Returned(earlier + items)
                case Raised => Raised)
        case _ => Raised
  }

  /** `_extract_from_resource_access` */
  function FromResourceAccess(userData: seq<(string, Json)>): Outcome<seq<Json>> {
    match GetOr(userData, "resource_access", Obj([]))
    case Obj(resourceAccess) => ClientRolesOf(resourceAccess, ResourceClients)
    case _ => Raised
  }

  /** One entry of `client_roles`: an object contributes its truthy `name`, a
      string itself, anything else nothing. */
  function ClientRoleName(entry: Json): Option<Json> {
    match entry
    case Obj(entries) =>
      var name := GetOr(entries, "name", Null);
      if Truthy(name) then Some(name) else None
    case Str(_) => Some(entry)
    case _ => None
  }

  function ClientRoleNames(entries: seq<Json>): seq<Json>
    decreases |entries|
  {
    if |entries| == 0 then []
    else
      var earlier := ClientRoleNames(entries[..|entries| - 1]);
      match ClientRoleName(entries[|entries| - 1])
      case Some(name) => earlier + [name]
      case None => earlier
  }

  /** `_extract_from_client_roles`: nothing unless `client_roles` is a list. */
  function FromClientRoles(userData: seq<(string, Json)>): seq<Json> {
    match GetOr(userData, "client_roles", List([]))
    case List(entries) => ClientRoleNames(entries)
    case _ => []
  }

  /** The six role sources of `_extract_roles`, in order. Reading
      `realm_access.roles` raises when `realm_access` is present but not an object. */
  function RoleSources(userData: seq<(string, Json)>): Outcome<seq<Json>> {
    var realm := GetOr(userData, "realm_access", Obj([]));
    var roleName := GetOr(userData, "role_name", Null);
    if !realm.Obj? then Raised
    else match FromResourceAccess(userData)
      case Raised => Raised
      case Returned(resourceRoles) =>
        Returned([GetOr(userData, "roles", List([])),
                  GetOr(realm.entries, "roles", List([])),
                  List(resourceRoles),
                  GetOr(userData, "groups", List([])),
                  List(FromClientRoles(userData)),
                  List(if Truthy(roleName) then [roleName] else [])])
  }

  /** The candidate roles: the items of every source that is a list, in order.
      Sources that are not lists are ignored. */
  function Candidates(sources: seq<Json>): seq<Json>
    decreases |sources|
  {
    if |sources| == 0 then []
    else
      var last := sources[|sources| - 1];
      Candidates(sources[..|sources| - 1]) + (if last.List? then last.items else [])
  }

  /** The truthy candidates, each kept only at its first occurrence. */
  function Collect(candidates: seq<Json>): seq<Json>
    decreases |candidates|
  {
    if |candidates| == 0 then []
    else
      var earlier := Collect(candidates[..|candidates| - 1]);
      var c := candidates[|candidates| - 1];
      if Truthy(c) && !PyIn(c, earlier) then earlier + [c] else earlier
  }

  predicate IsSystemRole(role: Json) {
    role.Str? && role.s in SystemRoles
  }

  function WithoutSystemRoles(roles: seq<Json>): (r: seq<Json>)
    ensures |r| <= |roles|
    ensures forall i :: 0 <= i < |r| ==> r[i] in roles && !IsSystemRole(r[i])
    ensures forall i :: 0 <= i < |roles| && !IsSystemRole(roles[i]) ==> roles[i] in r
    decreases |roles|
  {
    if |roles| == 0 then []
    else
      var earlier := WithoutSystemRoles(roles[..|roles| - 1]);
      var last := roles[|roles| - 1];
      if IsSystemRole(last) then earlier else earlier + [last]
  }

  /** No two elements are equal in Python's sense. */
  predicate Distinct(xs: seq<Json>) {
    forall i, j :: 0 <= i < j < |xs| ==> !PyEq(xs[i], xs[j])
  }

  /** Filtering distinct roles leaves them distinct. */
  lemma {:induction false} WithoutSystemRolesDistinct(roles: seq<Json>)
    requires Distinct(roles)
    ensures Distinct(WithoutSystemRoles(roles))
    decreases |roles|
  {
    if |roles| > 0 {
      var prefix, last := roles[..|roles| - 1], roles[|roles| - 1];
      WithoutSystemRolesDistinct(prefix);
      var earlier := WithoutSystemRoles(prefix);
      if !IsSystemRole(last) {
        forall i | 0 <= i < |earlier|
          ensures !PyEq(earlier[i], last)
        {
          var a :| 0 <= a < |prefix| && prefix[a] == earlier[i];
          assert roles[a] == earlier[i];
        }
        var r := earlier + [last];
        assert WithoutSystemRoles(roles) == r;
        forall i, j | 0 <= i < j < |r|
          ensures !PyEq(r[i], r[j])
        {
          if j < |earlier| {
            assert r[i] == earlier[i] && r[j] == earlier[j];
          } else {
            assert r[i] == earlier[i] && r[j] == last;
          }
        }
      }
    }
  }

  /** `_extract_roles`. A truthy list or object among the candidates cannot be
      hashed by the system-role filter, so it makes the extraction raise. The
      order of the result is first occurrence; the source's final `set` pass
      leaves the same elements in an unspecified order. */
  function RolesOf(userData: seq<(string, Json)>): Outcome<seq<Json>> {
    match RoleSources(userData)
    case Raised => Raised
    case Returned(sources) => Extracted(Collect(Candidates(sources)))
  }

  /** The system-role filter applied to the merged roles: it raises on an
      unhashable role (a list or an object). */
  function Extracted(collected: seq<Json>): Outcome<seq<Json>> {
    if exists i :: 0 <= i < |collected| && (collected[i].List? || collected[i].Obj?) then Raised
    else Returned(WithoutSystemRoles(collected))
  }

  // ---------------------------------------------------------------------------
  // Properties of the role extraction

  /** Collect keeps each truthy candidate once, up to Python equality, and
      keeps nothing else. */
  lemma {:induction false} CollectProperties(candidates: seq<Json>)
    ensures var r := Collect(candidates);
            && Distinct(r)
            && (forall i :: 0 <= i < |r| ==> Truthy(r[i]) && r[i] in candidates)
            && (forall c :: c in candidates && Truthy(c) ==> PyIn(c, r))
    decreases |candidates|
  {
    if |candidates| > 0 {
      var prefix, c := candidates[..|candidates| - 1], candidates[|candidates| - 1];
      CollectProperties(prefix);
      var earlier := Collect(prefix);
      var r := Collect(candidates);
      assert candidates == prefix + [c];
      if Truthy(c) && !PyIn(c, earlier) {
        forall i | 0 <= i < |earlier|
          ensures !PyEq(earlier[i], c)
        {
          PyEqSymmetric(earlier[i], c);
        }
        assert PyEq(c, r[|r| - 1]);
      }
      forall x | x in candidates && Truthy(x)
        ensures PyIn(x, r)
      {
        if x in prefix {
          var i :| 0 <= i < |earlier| && PyEq(x, earlier[i]);
          assert r[i] == earlier[i];
        }
      }
    }
  }

  /** Filtering the collected candidates keeps them distinct. */
  lemma FilteredRolesDistinct(candidates: seq<Json>)
    ensures Distinct(WithoutSystemRoles(Collect(candidates)))
  {
    CollectProperties(candidates);
    WithoutSystemRolesDistinct(Collect(candidates));
  }

  /** Each filtered role is a truthy, non-system candidate. */
  lemma FilteredRolesMembers(candidates: seq<Json>)
    ensures var roles := WithoutSystemRoles(Collect(candidates));
            forall i :: 0 <= i < |roles| ==> !IsSystemRole(roles[i]) && Truthy(roles[i]) && roles[i] in candidates
  {
    CollectProperties(candidates);
  }

  /** Every truthy non-system candidate has an equal among the filtered roles. */
  lemma FilteredRolesComplete(candidates: seq<Json>, c: Json)
    requires c in candidates && Truthy(c) && !IsSystemRole(c)
    ensures PyIn(c, WithoutSystemRoles(Collect(candidates)))
  {
    var collected := Collect(candidates);
    var roles := WithoutSystemRoles(collected);
    CollectProperties(candidates);
    var k :| 0 <= k < |collected| && PyEq(c, collected[k]);
    // Python equality never relates a string to a non-string, so the
    // matching role is not a system role either.
    assert !IsSystemRole(collected[k]);
    var m :| 0 <= m < |roles| && roles[m] == collected[k];
  }

  /** The roles a user ends up with: no duplicates, no system role, each one a
      truthy value taken from one of the six sources, and every truthy
      non-system candidate is among them. */
  lemma RolesOfProperties(userData: seq<(string, Json)>)
    ensures RolesOf(userData).Returned? ==>
            var roles := RolesOf(userData).value;
            var candidates := Candidates(RoleSources(userData).value);
            && Distinct(roles)
            && (forall i :: 0 <= i < |roles| ==> !IsSystemRole(roles[i]) && Truthy(roles[i]) && roles[i] in candidates)
            && (forall c :: c in candidates && Truthy(c) && !IsSystemRole(c) ==> PyIn(c, roles))
  {
    if RolesOf(userData).Returned? {
      var candidates := Candidates(RoleSources(userData).value);
      assert RolesOf(userData).value == WithoutSystemRoles(Collect(candidates));
      FilteredRolesDistinct(candidates);
      FilteredRolesMembers(candidates);
      forall c | c in candidates && Truthy(c) && !IsSystemRole(c)
        ensures PyIn(c, RolesOf(userData).value)
      {
        FilteredRolesComplete(candidates, c);
      }
    }
  }

  /** The part of `RolesOfProperties` that `_extract_roles` promises by itself. */
  lemma ReturnedRolesClean(userData: seq<(string, Json)>)
    ensures RolesOf(userData).Returned? ==>
            Distinct(RolesOf(userData).value)
            && forall i :: 0 <= i < |RolesOf(userData).value| ==>
                 !IsSystemRole(RolesOf(userData).value[i]) && Truthy(RolesOf(userData).value[i])
  {
    RolesOfProperties(userData);
  }

  /** Only the four listed clients of `resource_access` are read: entries for
      any other client make no difference. */
  lemma {:induction false} OnlyListedClients(a: seq<(string, Json)>, b: seq<(string, Json)>, clients: seq<string>)
    requires forall c :: c in clients ==> Get(a, c) == Get(b, c)
    ensures ClientRolesOf(a, clients) == ClientRolesOf(b, clients)
    decreases |clients|
  {
    if |clients| > 0 {
      OnlyListedClients(a, b, clients[..|clients| - 1]);
      assert clients[|clients| - 1] in clients;
    }
  }

  /** Each role taken from `client_roles` is an object's truthy name or a string
      entry, and every such name or string is taken. */
  lemma {:induction false} ClientRoleNamesMembers(entries: seq<Json>)
    ensures forall x :: x in ClientRoleNames(entries) <==> exists e :: e in entries && ClientRoleName(e) == Some(x)
    decreases |entries|
  {
    if |entries| > 0 {
      var prefix, last := entries[..|entries| - 1], entries[|entries| - 1];
      ClientRoleNamesMembers(prefix);
      assert entries == prefix + [last];
      forall x | exists e :: e in entries && ClientRoleName(e) == Some(x)
        ensures x in ClientRoleNames(entries)
      {
        var e :| e in entries && ClientRoleName(e) == Some(x);
        if e != last {
          assert e in prefix;
        }
      }
    }
  }

  // ---------------------------------------------------------------------------
  // The extraction loops

  /** Once reading one client raises, reading more clients raises too. */
  lemma {:induction false} ClientRolesRaisedStays(resourceAccess: seq<(string, Json)>, clients: seq<string>, n: nat)
    requires n <= |clients|
    requires ClientRolesOf(resourceAccess, clients[..n]).Raised?
    ensures ClientRolesOf(resourceAccess, clients).Raised?
    decreases |clients| - n
  {
    if n < |clients| {
      var shorter := clients[..|clients| - 1];
      assert shorter[..n] == clients[..n];
      ClientRolesRaisedStays(resourceAccess, shorter, n);
    } else {
      assert clients[..n] == clients;
    }
  }

  /** `_extract_from_resource_access`, client by client. */
  method ExtractFromResourceAccess(userData: seq<(string, Json)>) returns (r: Outcome<seq<Json>>)
    ensures r == FromResourceAccess(userData)
  {
    var resourceAccess := GetOr(userData, "resource_access", Obj([]));
    if !resourceAccess.Obj? {
      return Raised;
    }
    var access := resourceAccess.entries;
    var roles := [];
    var i := 0;
    while i < |ResourceClients|
      invariant 0 <= i <= |ResourceClients|
      invariant ClientRolesOf(access, ResourceClients[..i]) == Returned(roles)
    {
      assert ResourceClients[..i + 1][..i] == ResourceClients[..i];
      var clientData := GetOr(access, ResourceClients[i], Obj([]));
      if !clientData.Obj? {
        ClientRolesRaisedStays(access, ResourceClients, i + 1);
        return Raised;
      }
      var clientRoles := GetOr(clientData.entries, "roles", List([]));
      if Truthy(clientRoles) {
        var items := Items(clientRoles);
        if items.Raised? {
          ClientRolesRaisedStays(access, ResourceClients, i + 1);
          return Raised;
        }
        roles := roles + items.value;
      }
      i := i + 1;
    }
    assert ResourceClients[..i] == ResourceClients;
    r := Returned(roles);
  }

  /** `_extract_from_client_roles`, entry by entry. */
  method ExtractFromClientRoles(userData: seq<(string, Json)>) returns (roles: seq<Json>)
    ensures roles == FromClientRoles(userData)
    ensures forall x :: x in roles ==> (x.Str? || Truthy(x))
  {
    roles := [];
    var clientRoles := GetOr(userData, "client_roles", List([]));
    if clientRoles.List? {
      var entries := clientRoles.items;
      var i := 0;
      while i < |entries|
        invariant 0 <= i <= |entries|
        invariant roles == ClientRoleNames(entries[..i])
      {
        assert entries[..i + 1][..i] == entries[..i];
        var roleData := entries[i];
        if roleData.Obj? {
          var name := GetOr(roleData.entries, "name", Null);
          if Truthy(name) {
            roles := roles + [name];
          }
        } else if roleData.Str? {
          roles := roles + [roleData];
        }
        i := i + 1;
      }
      assert entries[..i] == entries;
      ClientRoleNamesMembers(entries);
    }
  }

  /** `_extract_roles`: gathers the six sources, merges their items without
      duplicates, then drops the system roles. */
  method ExtractRoles(userData: seq<(string, Json)>) returns (r: Outcome<seq<Json>>)
    ensures r == RolesOf(userData)
    ensures r.Returned? ==> Distinct(r.value) && forall i :: 0 <= i < |r.value| ==> !IsSystemRole(r.value[i]) && Truthy(r.value[i])
  {
    var realm := GetOr(userData, "realm_access", Obj([]));
    if !realm.Obj? {
      return Raised;
    }
    var resourceRoles := ExtractFromResourceAccess(userData);
    if resourceRoles.Raised? {
      return Raised;
    }
    var clientRoles := ExtractFromClientRoles(userData);
    var roleName := GetOr(userData, "role_name", Null);
    var sources := [GetOr(userData, "roles", List([])),
                    GetOr(realm.entries, "roles", List([])),
                    List(resourceRoles.value),
                    GetOr(userData, "groups", List([])),
                    List(clientRoles),
                    List(if Truthy(roleName) then [roleName] else [])];
    SourcesRead(userData, resourceRoles.value);
    var roles := MergeSources(sources);
    r := FilterSystemRoles(roles);
    ReturnedRolesClean(userData);
  }

  /** When `realm_access` is an object and `resource_access` can be read, the
      six sources are those values, in the order `_extract_roles` lists them. */
  lemma SourcesRead(userData: seq<(string, Json)>, resourceRoles: seq<Json>)
    requires GetOr(userData, "realm_access", Obj([])).Obj?
    requires FromResourceAccess(userData) == Returned(resourceRoles)
    ensures var roleName := GetOr(userData, "role_name", Null);
            RoleSources(userData)
            == Returned([GetOr(userData, "roles", List([])),
                         GetOr(GetOr(userData, "realm_access", Obj([])).entries, "roles", List([])),
                         List(resourceRoles),
                         GetOr(userData, "groups", List([])),
                         List(FromClientRoles(userData)),
                         List(if Truthy(roleName) then [roleName] else [])])
  {
  }

  /** The merge loop of `_extract_roles`: every truthy list source is
      merged in turn. */
  method MergeSources(sources: seq<Json>) returns (roles: seq<Json>)
    ensures roles == Collect(Candidates(sources))
  {
    roles := [];
    var i := 0;
    while i < |sources|
      invariant 0 <= i <= |sources|
      invariant roles == Collect(Candidates(sources[..i]))
    {
      assert sources[..i + 1][..i] == sources[..i];
      var source := sources[i];
      ghost var before := Candidates(sources[..i]);
      assert Candidates(sources[..i + 1]) == before + (if source.List? then source.items else []);
      if Truthy(source) && source.List? {
        roles := MergeItems(before, roles, source.items);
      } else if source.List? {
        assert before + source.items == before;
      } else {
        assert before + [] == before;
      }
      i := i + 1;
    }
    assert sources[..i] == sources;
  }

  /** The inner loop: each truthy item is appended unless an equal role is
      already there. */
  method MergeItems(ghost before: seq<Json>, roles: seq<Json>, items: seq<Json>) returns (merged: seq<Json>)
    requires roles == Collect(before)
    ensures merged == Collect(before + items)
  {
    merged := roles;
    var j := 0;
    assert before + items[..j] == before;
    while j < |items|
      invariant 0 <= j <= |items|
      invariant merged == Collect(before + items[..j])
    {
      assert (before + items[..j + 1])[..|before| + j] == before + items[..j];
      var role := items[j];
      if Truthy(role) && !PyIn(role, merged) {
        merged := merged + [role];
      }
      j := j + 1;
    }
    assert items[..j] == items;
  }

  /** The system-role filter of `_extract_roles`. Testing membership in the
      set of system roles raises on a list or an object. */
  method FilterSystemRoles(roles: seq<Json>) returns (r: Outcome<seq<Json>>)
    ensures r.Raised? <==> exists i :: 0 <= i < |roles| && (roles[i].List? || roles[i].Obj?)
    ensures r.Returned? ==> r.value == WithoutSystemRoles(roles)
    ensures r == Extracted(roles)
  {
    var filtered := [];
    var k := 0;
    while k < |roles|
      invariant 0 <= k <= |roles|
      invariant filtered == WithoutSystemRoles(roles[..k])
      invariant forall m :: 0 <= m < k ==> !(roles[m].List? || roles[m].Obj?)
    {
      assert roles[..k + 1][..k] == roles[..k];
      var role := roles[k];
      if role.List? || role.Obj? {
        return Raised;
      }
      if !IsSystemRole(role) {
        filtered := filtered + [role];
      }
      k := k + 1;
    }
    assert roles[..k] == roles;
    r := Returned(filtered);
  }

  // ---------------------------------------------------------------------------
  // The user

  datatype User = User(id: Json, username: Json, roles: seq<Json>) {

    /** `role`: the first role, or 'guest' for a user without roles. */
    function Role(): (r: Json)
      ensures |roles| > 0 ==> r == roles[0]
      ensures |roles| == 0 ==> r == Str("guest")
    {
      if |roles| > 0 then roles[0] else Str("guest")
    }

    /** `is_super_admin` */
    predicate IsSuperAdmin() {
      Str("adminsuper") in roles
    }

    /** `is_admin`: some role is 'adminsuper' or 'admin'. */
    predicate IsAdmin() {
      exists i :: 0 <= i < |roles| && roles[i] in {Str("adminsuper"), Str("admin")}
    }
  }

  lemma SuperAdminIsAdmin(u: User)
    requires u.IsSuperAdmin()
    ensures u.IsAdmin()
  {
    var i :| 0 <= i < |u.roles| && u.roles[i] == Str("adminsuper");
  }

  /** The user `User(user_data)` builds, or `Raised`. */
  function NewUser(userData: seq<(string, Json)>): Outcome<User> {
    match Username(userData)
    case Raised => Raised
    case Returned(username) =>
      match RolesOf(userData)
      case Raised => Raised
      case Returned(roles) => Returned(User(UserId(userData), username, roles))
  }

  /** `User(user_data)`: the id, the username, then the roles. */
  method NewUserFrom(userData: seq<(string, Json)>) returns (u: Outcome<User>)
    ensures u == NewUser(userData)
    ensures u.Returned? ==> Distinct(u.value.roles)
  {
    var id := UserId(userData);
    var username := Username(userData);
    if username.Raised? {
      return Raised;
    }
    var roles := ExtractRoles(userData);
    if roles.Raised? {
      return Raised;
    }
    u := Returned(User(id, username.value, roles.value));
  }
}
