/** The group (country) helpers of the administration service: deriving a
    country name from a group name, the add/remove difference applied when a
    user's groups are replaced, and selecting groups by name. Calls to the
    identity server are parameters: what they return is given, not computed. */
module Groups {
  import opened Wrappers
  import opened Text
  import opened Sequences

  /** The prefix that marks a country administration group. */
  const AdminPrefix: string := "aclimate_admin_"

  /** `_extract_country_name`: when the lower-cased name contains the admin
      prefix, every occurrence of it is removed from the lower-cased name and
      the rest is capitalized; otherwise underscores become spaces and the
      name is title-cased. */
  function CountryName(groupName: string): string {
    if Contains(Lower(groupName), AdminPrefix) then Capitalize(ReplaceAll(Lower(groupName), AdminPrefix, ""))
    else Title(ReplaceChar(groupName, '_', ' '))
  }

  /** A group as `get_all` returns it after normalization. */
  datatype Group = Group(id: Option<string>, name: string, displayName: string, countryName: string)

  /** `_normalize_group_data`: the display and country names are both derived from the name. */
  function NormalizeGroup(id: Option<string>, name: string): (g: Group)
    ensures g.name == name && g.id == id
    ensures g.displayName == g.countryName == CountryName(name)
  {
    Group(id, name, CountryName(name), CountryName(name))
  }

  /** Replacing text that does not occur leaves a string unchanged. */
  lemma {:induction false} ReplaceAllAbsent(s: string, pat: string, rep: string)
    requires pat != [] && !Contains(s, pat)
    ensures ReplaceAll(s, pat, rep) == s
    decreases |s|
  {
    if |s| >= |pat| {
      assert s[..|pat|] != pat;
      ReplaceAllAbsent(s[1..], pat, rep);
      assert [s[0]] + s[1..] == s;
    }
  }

  /** A name whose lower-cased form is "aclimate_admin_<country>" names the
      country, capitalized. */
  lemma AdminGroupCountry(groupName: string, country: string)
    requires Lower(groupName) == AdminPrefix + country
    requires !Contains(country, AdminPrefix)
    ensures CountryName(groupName) == Capitalize(country)
  {
    var lowered := AdminPrefix + country;
    assert lowered[..|AdminPrefix|] == AdminPrefix;
    assert lowered[|AdminPrefix|..] == country;
    ReplaceAllAbsent(country, AdminPrefix, "");
  }

  /** Any other name keeps its length, has each underscore turned into a
      space, and has every letter title-cased. */
  lemma PlainGroupCountry(groupName: string)
    requires !Contains(Lower(groupName), AdminPrefix)
    ensures var r := CountryName(groupName);
      |r| == |groupName| && '_' !in r
      && forall i :: 0 <= i < |r| ==>
           r[i] == TitleChar(if groupName[i] == '_' then ' ' else groupName[i],
                             i > 0 && IsLetter(groupName[i - 1]))
  {
    var r := CountryName(groupName);
    forall i | 0 <= i < |r|
      ensures r[i] != '_'
    {
      var c := if groupName[i] == '_' then ' ' else groupName[i];
      assert r[i] == TitleChar(c, i > 0 && IsLetter(ReplaceChar(groupName, '_', ' ')[i - 1]));
    }
  }

  // ---------------------------------------------------------------------------
  // update_user_groups

  /** The elements of `xs` that are not in `other`, in order (the list
      comprehensions that compute the groups to add and to remove). */
  function Missing(xs: seq<string>, other: seq<string>): (r: seq<string>)
    ensures forall x :: x in r <==> x in xs && x !in other
    ensures IsSubsequence(r, xs)
  {
    if |xs| == 0 then []
    else
      var rest := Missing(xs[1..], other);
      assert forall x :: x in xs <==> x == xs[0] || x in xs[1..];
      if xs[0] in other then
        SubsequenceSkip(rest, xs[1..], xs[0]);
        assert [xs[0]] + xs[1..] == xs;
        rest
      else
        SubsequenceCons(rest, xs[1..], xs[0]);
        assert [xs[0]] + xs[1..] == xs;
        [xs[0]] + rest
  }

  /** `[group.get('name', '') for group in current_groups]` */
  function CurrentGroupNames(groups: seq<Option<string>>): (names: seq<string>)
    ensures |names| == |groups|
    ensures forall i :: 0 <= i < |groups| ==> names[i] == groups[i].GetOr("")
  {
    if |groups| == 0 then [] else [groups[0].GetOr("")] + CurrentGroupNames(groups[1..])
  }

  /** The set of names in a list. */
  function Names(xs: seq<string>): set<string> {
    set n | n in xs
  }

  function GroupsToAdd(newNames: seq<string>, current: seq<string>): seq<string> {
    Missing(newNames, current)
  }

  function GroupsToRemove(newNames: seq<string>, current: seq<string>): seq<string> {
    Missing(current, newNames)
  }

  /** The two lists never share a name, and applying them to the current
      names gives exactly the requested names. */
  lemma GroupDiffExact(newNames: seq<string>, current: seq<string>)
    ensures forall n :: !(n in GroupsToAdd(newNames, current) && n in GroupsToRemove(newNames, current))
    ensures Names(current) - Names(GroupsToRemove(newNames, current)) + Names(GroupsToAdd(newNames, current))
              == Names(newNames)
  {
  }

  /** A request made to the identity server. */
  datatype GroupCall = RemoveFromGroups(names: seq<string>) | AssignToGroups(names: seq<string>)

  /** What the identity server answers to a call. */
  predicate Succeeds(call: GroupCall, remove: seq<string> -> bool, assign: seq<string> -> bool) {
    match call
    case RemoveFromGroups(names) => remove(names)
    case AssignToGroups(names) => assign(names)
  }

  /** The calls `update_user_groups` makes, in order. */
  function UpdateCalls(newNames: seq<string>, current: seq<string>): seq<GroupCall> {
    var toRemove := GroupsToRemove(newNames, current);
    var toAdd := GroupsToAdd(newNames, current);
    (if |toRemove| > 0 then [RemoveFromGroups(toRemove)] else [])
    + (if |toAdd| > 0 then [AssignToGroups(toAdd)] else [])
  }

  /** `update_user_groups`: `userGroups` is the user's current groups (each
      with its name, if it has one), or None when the user could not be read;
      `remove` and `assign` are the identity server's answers. */
  method UpdateUserGroups(userGroups: Option<seq<Option<string>>>, newNames: seq<string>,
                          remove: seq<string> -> bool, assign: seq<string> -> bool)
    returns (success: bool, calls: seq<GroupCall>)
    ensures userGroups.None? ==> calls == []
    ensures userGroups.Some? ==> calls == UpdateCalls(newNames, CurrentGroupNames(userGroups.value))
    ensures forall c :: c in calls ==> |c.names| > 0
    ensures success <==> userGroups.Some? && forall c :: c in calls ==> Succeeds(c, remove, assign)
  {
    calls := [];
    if userGroups.None? {
      return false, calls;
    }
    var currentGroupNames := CurrentGroupNames(userGroups.value);
    var groupsToAdd := GroupsToAdd(newNames, currentGroupNames);
    var groupsToRemove := GroupsToRemove(newNames, currentGroupNames);
    success := true;
    if |groupsToRemove| > 0 {
      var call := RemoveFromGroups(groupsToRemove);
      calls := [call];
      assert forall c :: c in calls <==> c == call;
      assert Succeeds(call, remove, assign) == remove(groupsToRemove);
      if !remove(groupsToRemove) {
        success := false;
      }
    }
    assert success <==> forall c :: c in calls ==> Succeeds(c, remove, assign);
    if |groupsToAdd| > 0 {
      var call := AssignToGroups(groupsToAdd);
      assert forall c :: c in calls + [call] <==> c in calls || c == call;
      calls := calls + [call];
      assert Succeeds(call, remove, assign) == assign(groupsToAdd);
      if !assign(groupsToAdd) {
        success := false;
      }
    }
  }

  /** When the user already holds exactly the requested names (in any order,
      with any repetition), no call is made and the update succeeds. */
  lemma SameGroupsNoCalls(newNames: seq<string>, current: seq<string>)
    requires Names(newNames) == Names(current)
    ensures UpdateCalls(newNames, current) == []
  {
    forall x | x in newNames
      ensures x in current
    {
      assert x in Names(newNames);
    }
    forall x | x in current
      ensures x in newNames
    {
      assert x in Names(current);
    }
    var toRemove := GroupsToRemove(newNames, current);
    var toAdd := GroupsToAdd(newNames, current);
    assert forall i :: 0 <= i < |toRemove| ==> toRemove[i] in toRemove;
    assert forall i :: 0 <= i < |toAdd| ==> toAdd[i] in toAdd;
  }

  // ---------------------------------------------------------------------------
  // get_groups_by_names

  /** Whether a group's name is one of the requested names. */
  function Requested(groupNames: seq<string>): Group -> bool {
    (g: Group) => g.name in groupNames
  }

  /** `get_groups_by_names`: the groups whose name was requested, in the order
      `get_all` returned them. */
  method GetGroupsByNames(allGroups: seq<Group>, groupNames: seq<string>) returns (found: seq<Group>)
    ensures found == Filter(allGroups, Requested(groupNames))
    ensures forall g :: g in found <==> g in allGroups && g.name in groupNames
    ensures IsSubsequence(found, allGroups)
  {
    found := [];
    var i := 0;
    while i < |allGroups|
      invariant 0 <= i <= |allGroups|
      invariant found == Filter(allGroups[..i], Requested(groupNames))
    {
      var group := allGroups[i];
      FilterAppend(allGroups[..i], group, Requested(groupNames));
      PrefixExtend(allGroups, i);
      if group.name in groupNames {
        found := found + [group];
      }
      i := i + 1;
    }
    assert allGroups[..i] == allGroups;
    FilterMembership(allGroups, Requested(groupNames));
  }
}
