/** The saved-host list of the sidebar (frontend/src/components/Sidebar.tsx):
    case-insensitive search, grouping by tag, and the set of expanded groups. */
module Sidebar {
  import opened Outcome
  import opened Text

  /** One saved host as the sidebar shows it; an absent `tags` is the empty sequence. */
  datatype HostItem = HostItem(id: string, name: string, host: string, port: int, username: string, tags: seq<string>)

  datatype GroupBy = NoGrouping | ByTag

  /** Name of the single group shown when grouping is off. */
  const AllGroup: string := "全部"
  /** Name of the group that collects hosts without tags. */
  const UngroupedGroup: string := "未分组"

  // ---------------------------------------------------------------------
  // Search
  // ---------------------------------------------------------------------

  /** `h.name || h.host`: the label, falling back to the address when the name is empty. */
  function Label(h: HostItem): string {
    if h.name != "" then h.name else h.host
  }

  /** Some tag of `h`, lower-cased, contains `needle`. */
  predicate SomeTagContains(h: HostItem, needle: string) {
    exists k :: 0 <= k < |h.tags| && Contains(Lower(h.tags[k]), needle)
  }

  /** A host matches a lower-cased search text when the text occurs in its
      label, address, user name or one of its tags, all lower-cased. */
  predicate Matches(h: HostItem, needle: string) {
    Contains(Lower(Label(h)), needle) || Contains(Lower(h.host), needle)
    || Contains(Lower(h.username), needle) || SomeTagContains(h, needle)
  }

  function KeepMatching(hosts: seq<HostItem>, needle: string): (r: seq<HostItem>)
    ensures forall h :: h in r <==> h in hosts && Matches(h, needle)
    ensures |r| <= |hosts|
  {
    if hosts == [] then []
    else (if Matches(hosts[0], needle) then [hosts[0]] else []) + KeepMatching(hosts[1..], needle)
  }

  /** The `filteredHosts` memo: every host when the search text is empty,
      otherwise the matching hosts in their original order. */
  function FilteredHosts(hosts: seq<HostItem>, searchText: string): (r: seq<HostItem>)
    ensures searchText == "" ==> r == hosts
    ensures searchText != "" ==> forall h :: h in r <==> h in hosts && Matches(h, Lower(searchText))
  {
    if searchText == "" then hosts else KeepMatching(hosts, Lower(searchText))
  }

  /** Searching a list made of two parts searches each part and keeps them
      in that order, so the search never reorders hosts. */
  lemma {:induction false} KeepMatchingConcat(a: seq<HostItem>, b: seq<HostItem>, needle: string)
    ensures KeepMatching(a + b, needle) == KeepMatching(a, needle) + KeepMatching(b, needle)
  {
    if a != [] {
      assert (a + b)[1..] == a[1..] + b;
      KeepMatchingConcat(a[1..], b, needle);
    } else {
      assert a + b == b;
    }
  }

  /** With a non-empty search text, a list whose hosts all match is kept whole. */
  lemma {:induction false} KeepMatchingAll(hosts: seq<HostItem>, needle: string)
    requires forall i :: 0 <= i < |hosts| ==> Matches(hosts[i], needle)
    ensures KeepMatching(hosts, needle) == hosts
  {
    if hosts != [] {
      KeepMatchingAll(hosts[1..], needle);
    }
  }

  // ---------------------------------------------------------------------
  // Grouping by tag
  // ---------------------------------------------------------------------

  /** How many times `t` occurs among `tags`. */
  function Occurrences(tags: seq<string>, t: string): nat {
    if tags == [] then 0 else Occurrences(tags[..|tags| - 1], t) + (if tags[|tags| - 1] == t then 1 else 0)
  }

  function Repeat(h: HostItem, n: nat): (r: seq<HostItem>)
    ensures |r| == n && forall k :: 0 <= k < n ==> r[k] == h
  {
    seq(n, _ => h)
  }

  /** The hosts pushed into group `t`: each host once per occurrence of `t` among its tags, in list order. */
  function TagGroup(hosts: seq<HostItem>, t: string): seq<HostItem> {
    if hosts == [] then []
    else
      var h := hosts[|hosts| - 1];
      TagGroup(hosts[..|hosts| - 1], t) + Repeat(h, Occurrences(h.tags, t))
  }

  /** The hosts without tags, in list order. */
  function Untagged(hosts: seq<HostItem>): seq<HostItem> {
    if hosts == [] then []
    else
      var h := hosts[|hosts| - 1];
      Untagged(hosts[..|hosts| - 1]) + (if h.tags == [] then [h] else [])
  }

  /** Every tag some host carries. */
  function AllTags(hosts: seq<HostItem>): set<string> {
    set i, k | 0 <= i < |hosts| && 0 <= k < |hosts[i].tags| :: hosts[i].tags[k]
  }

  /** One group per tag. */
  function TagMap(hosts: seq<HostItem>): map<string, seq<HostItem>> {
    map t | t in AllTags(hosts) :: TagGroup(hosts, t)
  }

  /** The `groupedHosts` memo, as the code intends it: with grouping off, one
      group holding the filtered hosts; by tag, one group per tag and, when
      some host has no tag, the group `未分组` (set last, so it replaces a tag
      group of that name). */
  function Grouped(groupBy: GroupBy, filtered: seq<HostItem>): map<string, seq<HostItem>> {
    if groupBy == NoGrouping then map[AllGroup := filtered]
    else
      var ungrouped := Untagged(filtered);
      if ungrouped != [] then TagMap(filtered)[UngroupedGroup := ungrouped] else TagMap(filtered)
  }

  lemma {:induction false} OccurrencesPositive(tags: seq<string>, t: string)
    ensures Occurrences(tags, t) > 0 <==> t in tags
  {
    if tags != [] {
      OccurrencesPositive(tags[..|tags| - 1], t);
      assert tags == tags[..|tags| - 1] + [tags[|tags| - 1]];
    }
  }

  /** A host is in the group of tag `t` exactly when it is in the list and carries `t`. */
  lemma {:induction false} TagGroupMembers(hosts: seq<HostItem>, t: string, h: HostItem)
    ensures h in TagGroup(hosts, t) <==> h in hosts && t in h.tags
  {
    if hosts != [] {
      var last := hosts[|hosts| - 1];
      TagGroupMembers(hosts[..|hosts| - 1], t, h);
      OccurrencesPositive(last.tags, t);
      assert hosts == hosts[..|hosts| - 1] + [last];
      var rep := Repeat(last, Occurrences(last.tags, t));
      assert h in rep <==> |rep| > 0 && h == last by {
        if h in rep { var k :| 0 <= k < |rep| && rep[k] == h; }
        if |rep| > 0 { assert rep[0] == last; }
      }
    }
  }

  /** A host is ungrouped exactly when it is in the list and has no tag. */
  lemma {:induction false} UntaggedMembers(hosts: seq<HostItem>, h: HostItem)
    ensures h in Untagged(hosts) <==> h in hosts && h.tags == []
  {
    if hosts != [] {
      UntaggedMembers(hosts[..|hosts| - 1], h);
      assert hosts == hosts[..|hosts| - 1] + [hosts[|hosts| - 1]];
    }
  }

  /** Keep the hosts that carry `t`, in list order. */
  function WithTag(hosts: seq<HostItem>, t: string): seq<HostItem> {
    if hosts == [] then []
    else WithTag(hosts[..|hosts| - 1], t) + (if t in hosts[|hosts| - 1].tags then [hosts[|hosts| - 1]] else [])
  }

  /** When no host repeats a tag, the group of `t` is exactly the hosts carrying `t`, in list order. */
  lemma {:induction false} TagGroupIsFilter(hosts: seq<HostItem>, t: string)
    requires forall i :: 0 <= i < |hosts| ==> Occurrences(hosts[i].tags, t) <= 1
    ensures TagGroup(hosts, t) == WithTag(hosts, t)
  {
    if hosts != [] {
      var last := hosts[|hosts| - 1];
      TagGroupIsFilter(hosts[..|hosts| - 1], t);
      OccurrencesPositive(last.tags, t);
      assert Occurrences(last.tags, t) <= 1;
    }
  }

  /** A tagged host shows up in the group of every tag it carries. */
  lemma GroupedByTagMembers(filtered: seq<HostItem>, h: HostItem, t: string)
    requires h in filtered && t in h.tags && t != UngroupedGroup
    ensures t in Grouped(ByTag, filtered) && h in Grouped(ByTag, filtered)[t]
  {
    var i :| 0 <= i < |filtered| && filtered[i] == h;
    var k :| 0 <= k < |h.tags| && h.tags[k] == t;
    assert t in AllTags(filtered);
    TagGroupMembers(filtered, t, h);
  }

  /** The ungrouped bucket exists only when some host lacks tags (or a host is tagged with its name). */
  lemma UngroupedGroupExists(filtered: seq<HostItem>)
    ensures UngroupedGroup in Grouped(ByTag, filtered)
      <==> Untagged(filtered) != [] || UngroupedGroup in AllTags(filtered)
    ensures Untagged(filtered) != [] ==> Grouped(ByTag, filtered)[UngroupedGroup] == Untagged(filtered)
  {
  }

  /** Appending one host extends each tag's group by that host, once per occurrence. */
  lemma TagMapSnoc(hosts: seq<HostItem>, h: HostItem)
    ensures AllTags(hosts + [h]) == AllTags(hosts) + set k | 0 <= k < |h.tags| :: h.tags[k]
    ensures forall t :: TagGroup(hosts + [h], t) == TagGroup(hosts, t) + Repeat(h, Occurrences(h.tags, t))
  {
    var hs := hosts + [h];
    assert hs[..|hs| - 1] == hosts;
    forall t | t in AllTags(hs) ensures t in AllTags(hosts) + set k | 0 <= k < |h.tags| :: h.tags[k] {
      var i, k :| 0 <= i < |hs| && 0 <= k < |hs[i].tags| && hs[i].tags[k] == t;
      if i < |hosts| {
        assert hosts[i].tags[k] == t;
      }
    }
    forall t | t in AllTags(hosts) ensures t in AllTags(hs) {
      var i, k :| 0 <= i < |hosts| && 0 <= k < |hosts[i].tags| && hosts[i].tags[k] == t;
      assert hs[i].tags[k] == t;
    }
    forall k | 0 <= k < |h.tags| ensures h.tags[k] in AllTags(hs) {
      assert hs[|hosts|].tags[k] == h.tags[k];
    }
  }

  lemma OccurrencesSnoc(tags: seq<string>, x: string, t: string)
    ensures Occurrences(tags + [x], t) == Occurrences(tags, t) + (if x == t then 1 else 0)
  {
    assert (tags + [x])[..|tags|] == tags;
  }

  /** The tags among the first `j` tags of `h`. */
  function TagsBefore(h: HostItem, j: nat): set<string>
    requires j <= |h.tags|
  {
    set k | 0 <= k < j :: h.tags[k]
  }

  /** The groups once the hosts of `prefix` and the first `j` tags of `h` are pushed. */
  function PartialGroups(prefix: seq<HostItem>, h: HostItem, j: nat): map<string, seq<HostItem>>
    requires j <= |h.tags|
  {
    map t | t in AllTags(prefix) + TagsBefore(h, j) :: TagGroup(prefix, t) + Repeat(h, Occurrences(h.tags[..j], t))
  }

  lemma PartialGroupsStart(prefix: seq<HostItem>, h: HostItem)
    ensures PartialGroups(prefix, h, 0) == TagMap(prefix)
  {
    assert TagsBefore(h, 0) == {};
    forall t ensures TagGroup(prefix, t) + Repeat(h, Occurrences(h.tags[..0], t)) == TagGroup(prefix, t) {
      assert h.tags[..0] == [];
    }
  }

  lemma PartialGroupsEnd(prefix: seq<HostItem>, h: HostItem)
    ensures PartialGroups(prefix, h, |h.tags|) == TagMap(prefix + [h])
  {
    TagMapSnoc(prefix, h);
    assert h.tags[..|h.tags|] == h.tags;
  }

  /** Pushing `h` into the group of its `j`-th tag, creating the group when it is missing. */
  lemma PartialGroupsStep(prefix: seq<HostItem>, h: HostItem, j: nat, g: map<string, seq<HostItem>>)
    requires j < |h.tags| && g == PartialGroups(prefix, h, j)
    ensures var tag := h.tags[j];
            PartialGroups(prefix, h, j + 1) == g[tag := (if tag in g then g[tag] else []) + [h]]
  {
    var tag := h.tags[j];
    assert h.tags[..j + 1] == h.tags[..j] + [tag];
    assert TagsBefore(h, j + 1) == TagsBefore(h, j) + {tag};
    if tag !in g {
      OccurrencesAbsent(prefix, h, j, tag);
    }
    var next := PartialGroups(prefix, h, j + 1);
    var want := g[tag := (if tag in g then g[tag] else []) + [h]];
    assert next.Keys == want.Keys;
    forall t | t in next ensures next[t] == want[t] {
      PartialGroupAt(prefix, h, j, t);
    }
  }

  /** The group of `t` after the `j`-th tag of `h`: one more `h` when that tag is `t`. */
  lemma PartialGroupAt(prefix: seq<HostItem>, h: HostItem, j: nat, t: string)
    requires j < |h.tags|
    ensures TagGroup(prefix, t) + Repeat(h, Occurrences(h.tags[..j + 1], t))
         == TagGroup(prefix, t) + Repeat(h, Occurrences(h.tags[..j], t)) + (if t == h.tags[j] then [h] else [])
  {
    assert h.tags[..j + 1] == h.tags[..j] + [h.tags[j]];
    OccurrencesSnoc(h.tags[..j], h.tags[j], t);
    var n := Occurrences(h.tags[..j], t);
    if t == h.tags[j] {
      assert Repeat(h, n + 1) == Repeat(h, n) + [h];
    }
  }

  /** Builds the groups the way `groupedHosts` does: one pass over the
      filtered hosts, pushing each tagged host into the group of each of its
      tags and each untagged host into the ungrouped list. */
  method GroupHosts(groupBy: GroupBy, filtered: seq<HostItem>) returns (groups: map<string, seq<HostItem>>)
    ensures groups == Grouped(groupBy, filtered)
  {
    if groupBy == NoGrouping {
      return map[AllGroup := filtered];
    }
    groups := map[];
    var ungrouped: seq<HostItem> := [];
    var i := 0;
    while i < |filtered|
      invariant 0 <= i <= |filtered|
      invariant groups == TagMap(filtered[..i])
      invariant ungrouped == Untagged(filtered[..i])
    {
      var h := filtered[i];
      assert filtered[..i + 1] == filtered[..i] + [h];
      if |h.tags| > 0 {
        groups := PushTags(groups, filtered[..i], h);
      } else {
        ungrouped := ungrouped + [h];
        PartialGroupsStart(filtered[..i], h);
        PartialGroupsEnd(filtered[..i], h);
      }
      i := i + 1;
    }
    assert filtered[..i] == filtered;
    if |ungrouped| > 0 {
      groups := groups[UngroupedGroup := ungrouped];
    }
  }

  /** The inner `forEach` over the tags of one host. */
  method PushTags(groups: map<string, seq<HostItem>>, prefix: seq<HostItem>, h: HostItem)
    returns (r: map<string, seq<HostItem>>)
    requires groups == TagMap(prefix)
    ensures r == TagMap(prefix + [h])
  {
    r := groups;
    PartialGroupsStart(prefix, h);
    var j := 0;
    while j < |h.tags|
      invariant 0 <= j <= |h.tags|
      invariant r == PartialGroups(prefix, h, j)
    {
      var tag := h.tags[j];
      PartialGroupsStep(prefix, h, j, r);
      var group := if tag in r then r[tag] else [];
      r := r[tag := group + [h]];
      j := j + 1;
    }
    PartialGroupsEnd(prefix, h);
  }

  /** A tag not yet seen has an empty group so far and no earlier occurrence. */
  lemma OccurrencesAbsent(prefix: seq<HostItem>, h: HostItem, j: nat, tag: string)
    requires j <= |h.tags|
    requires tag !in AllTags(prefix) + set k | 0 <= k < j :: h.tags[k]
    ensures TagGroup(prefix, tag) == [] && Occurrences(h.tags[..j], tag) == 0
  {
    TagGroupEmpty(prefix, tag);
    OccurrencesPositive(h.tags[..j], tag);
    forall k | 0 <= k < j ensures h.tags[..j][k] != tag {
      assert h.tags[k] in set k' | 0 <= k' < j :: h.tags[k'];
    }
  }

  lemma {:induction false} TagGroupEmpty(hosts: seq<HostItem>, t: string)
    requires t !in AllTags(hosts)
    ensures TagGroup(hosts, t) == []
  {
    if hosts != [] {
      var last := hosts[|hosts| - 1];
      var init := hosts[..|hosts| - 1];
      forall x | x in AllTags(init) ensures x in AllTags(hosts) {
        var i, k :| 0 <= i < |init| && 0 <= k < |init[i].tags| && init[i].tags[k] == x;
        assert hosts[i].tags[k] == x;
      }
      TagGroupEmpty(init, t);
      OccurrencesPositive(last.tags, t);
      forall k | 0 <= k < |last.tags| ensures last.tags[k] != t {
        assert hosts[|hosts| - 1].tags[k] == last.tags[k];
      }
    }
  }

  // ---------------------------------------------------------------------
  // The grouping as written, on a plain object
  // ---------------------------------------------------------------------

  /** Property names every plain object inherits from `Object.prototype`;
      reading one of them from `{}` yields a function (or, for `__proto__`,
      the prototype object), never `undefined`. */
  const InheritedNames: set<string> := {
    "constructor", "hasOwnProperty", "isPrototypeOf", "propertyIsEnumerable",
    "toLocaleString", "toString", "valueOf", "__proto__",
    "__defineGetter__", "__defineSetter__", "__lookupGetter__", "__lookupSetter__"
  }

  /** One `if (!groups[tag]) groups[tag] = []; groups[tag].push(h)` on the
      object the code uses: an inherited name is truthy, so no array is
      created and `push` is called on something that is not an array. */
  function PushAsWritten(groups: map<string, seq<HostItem>>, tag: string, h: HostItem): (r: Result<map<string, seq<HostItem>>>)
    ensures r.Err? <==> tag !in groups && tag in InheritedNames
    ensures r.Ok? ==> r.value == groups[tag := (if tag in groups then groups[tag] else []) + [h]]
  {
    if tag in groups then Ok(groups[tag := groups[tag] + [h]])
    else if tag in InheritedNames then Err("TypeError: groups[tag].push is not a function")
    else assert [] + [h] == [h]; Ok(groups[tag := [h]])
  }

  /** The first `j` pushes for the tags of `h`, stopping at the first throw. */
  function PushTagsAsWritten(groups: map<string, seq<HostItem>>, h: HostItem, j: nat): Result<map<string, seq<HostItem>>>
    requires j <= |h.tags|
  {
    if j == 0 then Ok(groups)
    else
      match PushTagsAsWritten(groups, h, j - 1)
      case Err(e) => Err(e)
      case Ok(g) => PushAsWritten(g, h.tags[j - 1], h)
  }

  /** The `forEach` over the filtered hosts as written: the tag groups and the
      untagged hosts, or the exception the first failing push throws. */
  function GroupLoopAsWritten(filtered: seq<HostItem>): Result<(map<string, seq<HostItem>>, seq<HostItem>)> {
    if filtered == [] then Ok((map[], []))
    else
      var h := filtered[|filtered| - 1];
      match GroupLoopAsWritten(filtered[..|filtered| - 1])
      case Err(e) => Err(e)
      case Ok(acc) =>
        if |h.tags| > 0 then
          match PushTagsAsWritten(acc.0, h, |h.tags|)
          case Err(e) => Err(e)
          case Ok(g) => Ok((g, acc.1))
        else Ok((acc.0, acc.1 + [h]))
  }

  /** The `groupedHosts` memo as written in tag mode. */
  function GroupedAsWritten(filtered: seq<HostItem>): Result<map<string, seq<HostItem>>> {
    match GroupLoopAsWritten(filtered)
    case Err(e) => Err(e)
    case Ok(acc) => Ok(if |acc.1| > 0 then acc.0[UngroupedGroup := acc.1] else acc.0)
  }

  /** A single host tagged `toString` makes the memo throw while rendering the sidebar. */
  lemma GroupedAsWrittenThrowsOnToString()
    ensures GroupedAsWritten([HostItem("1", "web", "10.0.0.1", 22, "root", ["toString"])]).Err?
  {
    var hs := [HostItem("1", "web", "10.0.0.1", 22, "root", ["toString"])];
    assert hs[..0] == [];
    assert PushTagsAsWritten(map[], hs[0], 0) == Ok(map[]);
    assert PushTagsAsWritten(map[], hs[0], 1).Err?;
  }

  /** The first `j` pushes for the tags of `h` on a plain map, where a
      missing group always starts empty. */
  function PushTagsFrom(groups: map<string, seq<HostItem>>, h: HostItem, j: nat): map<string, seq<HostItem>>
    requires j <= |h.tags|
  {
    if j == 0 then groups
    else
      var g := PushTagsFrom(groups, h, j - 1);
      var tag := h.tags[j - 1];
      g[tag := (if tag in g then g[tag] else []) + [h]]
  }

  /** With no inherited name among the tags, no push throws. */
  lemma {:induction false} PushTagsAsWrittenOk(groups: map<string, seq<HostItem>>, h: HostItem, j: nat)
    requires j <= |h.tags|
    requires forall k :: 0 <= k < |h.tags| ==> h.tags[k] !in InheritedNames
    ensures PushTagsAsWritten(groups, h, j) == Ok(PushTagsFrom(groups, h, j))
  {
    if j > 0 {
      PushTagsAsWrittenOk(groups, h, j - 1);
      assert h.tags[j - 1] !in InheritedNames;
    }
  }

  /** Pushing onto the groups of `prefix` gives the partial groups. */
  lemma {:induction false} PushTagsFromTagMap(prefix: seq<HostItem>, h: HostItem, j: nat)
    requires j <= |h.tags|
    ensures PushTagsFrom(TagMap(prefix), h, j) == PartialGroups(prefix, h, j)
  {
    if j == 0 {
      PartialGroupsStart(prefix, h);
    } else {
      PushTagsFromTagMap(prefix, h, j - 1);
      var g := PushTagsFrom(TagMap(prefix), h, j - 1);
      PartialGroupsStep(prefix, h, j - 1, g);
    }
  }

  lemma PushTagsAsWrittenAgrees(prefix: seq<HostItem>, h: HostItem, j: nat)
    requires j <= |h.tags|
    requires forall k :: 0 <= k < |h.tags| ==> h.tags[k] !in InheritedNames
    ensures PushTagsAsWritten(TagMap(prefix), h, j) == Ok(PartialGroups(prefix, h, j))
  {
    PushTagsAsWrittenOk(TagMap(prefix), h, j);
    PushTagsFromTagMap(prefix, h, j);
  }

  lemma {:induction false} GroupLoopAsWrittenAgrees(filtered: seq<HostItem>)
    requires AllTags(filtered) !! InheritedNames
    ensures GroupLoopAsWritten(filtered) == Ok((TagMap(filtered), Untagged(filtered)))
  {
    if filtered != [] {
      var h := filtered[|filtered| - 1];
      var init := filtered[..|filtered| - 1];
      assert filtered == init + [h];
      assert AllTags(init) !! InheritedNames by {
        forall t | t in AllTags(init) ensures t in AllTags(filtered) {
          var i, k :| 0 <= i < |init| && 0 <= k < |init[i].tags| && init[i].tags[k] == t;
          assert filtered[i].tags[k] == t;
        }
      }
      GroupLoopAsWrittenAgrees(init);
      forall k | 0 <= k < |h.tags| ensures h.tags[k] !in InheritedNames {
        assert filtered[|filtered| - 1].tags[k] in AllTags(filtered);
      }
      assert filtered[..|filtered| - 1] == init;
      if |h.tags| > 0 {
        PushTagsAsWrittenAgrees(init, h, |h.tags|);
        PartialGroupsEnd(init, h);
        assert Untagged(filtered) == Untagged(init);
      } else {
        PartialGroupsStart(init, h);
        PartialGroupsEnd(init, h);
      }
    }
  }

  /** Unless some tag names an inherited property, the memo as written
      computes exactly the intended grouping. */
  lemma GroupedAsWrittenAgrees(filtered: seq<HostItem>)
    requires AllTags(filtered) !! InheritedNames
    ensures GroupedAsWritten(filtered) == Ok(Grouped(ByTag, filtered))
  {
    GroupLoopAsWrittenAgrees(filtered);
  }

  // ---------------------------------------------------------------------
  // Expanded groups
  // ---------------------------------------------------------------------

  /** `toggleGroup` on a copy of the set: removes a present name, adds an absent one. */
  function Toggle(expanded: set<string>, name: string): (r: set<string>)
    ensures name in r <==> name !in expanded
    ensures forall g :: g != name ==> (g in r <==> g in expanded)
  {
    if name in expanded then expanded - {name} else expanded + {name}
  }

  /** Toggling the same group twice restores the set. */
  lemma ToggleTwice(expanded: set<string>, name: string)
    ensures Toggle(Toggle(expanded, name), name) == expanded
  {
  }

  /** The sidebar's view state. */
  class SidebarView {
    var groupBy: GroupBy
    var searchText: string
    var expanded: set<string>

    constructor ()
      ensures groupBy == ByTag && searchText == "" && expanded == {}
    {
      groupBy := ByTag;
      searchText := "";
      expanded := {};
    }

    /** `toggleGroup(name)`. */
    method ToggleGroup(name: string)
      modifies this`expanded
      ensures expanded == Toggle(old(expanded), name)
    {
      var next := expanded;
      if name in next {
        next := next - {name};
      } else {
        next := next + {name};
      }
      expanded := next;
    }

    /** The effect that runs when the mode or the groups change: in tag mode every current group is expanded. */
    method ExpandAllOnTagMode(hosts: seq<HostItem>)
      modifies this`expanded
      ensures groupBy == ByTag ==> expanded == Grouped(ByTag, FilteredHosts(hosts, searchText)).Keys
      ensures groupBy == NoGrouping ==> expanded == old(expanded)
    {
      if groupBy == ByTag {
        var groups := GroupHosts(groupBy, FilteredHosts(hosts, searchText));
        expanded := groups.Keys;
      }
    }
  }
}
