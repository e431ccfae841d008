/**
 * The technology list of a project detail page, grouped by category: one section per category,
 * in the order the categories first occur, each with its icon, its title and its technologies.
 */
module TechnologyStack {
  import opened Wrappers
  import opened Sequences

  /** A technology; a missing category is the empty string. */
  datatype Technology = Technology(name: string, category: string, icon: string)

  /** The group a technology lands in: its category, or "other" when that is empty. */
  function CategoryOf(t: Technology): (c: string)
    ensures c != ""
    ensures t.category != "" ==> c == t.category
  {
    if t.category == "" then "other" else t.category
  }

  /** The filter selecting one group. */
  function InCategory(c: string): Technology -> bool
  {
    t => CategoryOf(t) == c
  }

  /** The technologies of group `c`, in input order. */
  function Group(techs: seq<Technology>, c: string): seq<Technology>
  {
    Filter(techs, InCategory(c))
  }

  /** The position of the first occurrence of `x`. */
  function FirstIndex(s: seq<string>, x: string): (i: nat)
    requires x in s
    ensures i < |s| && s[i] == x
    ensures forall j :: 0 <= j < i ==> s[j] != x
  {
    if s[0] == x then 0 else 1 + FirstIndex(s[1..], x)
  }

  /** A value already present in a prefix is first found inside that prefix. */
  lemma {:induction false} FirstIndexInPrefix(s: seq<string>, k: nat, x: string)
    requires k <= |s| && x in s[..k]
    ensures x in s && FirstIndex(s, x) == FirstIndex(s[..k], x)
  {
    if s[0] != x {
      assert s[1..][..k - 1] == s[..k][1..];
      FirstIndexInPrefix(s[1..], k - 1, x);
    }
  }

  /** The categories in order of first occurrence: the key order of the grouping object. */
  function FirstAppearances(s: seq<string>): (r: seq<string>)
    ensures forall i, j :: 0 <= i < j < |r| ==> r[i] != r[j]
    ensures forall x :: x in r <==> x in s
  {
    if s == [] then []
    else
      var init := s[..|s| - 1];
      var p := FirstAppearances(init);
      assert forall x :: x in s <==> x in init || x == s[|s| - 1] by {
        assert s == init + [s[|s| - 1]];
      }
      if s[|s| - 1] in p then p else p + [s[|s| - 1]]
  }

  /** The listed categories are ordered by where each first occurs. */
  lemma {:induction false} FirstAppearancesOrder(s: seq<string>)
    ensures forall i, j :: 0 <= i < j < |FirstAppearances(s)| ==>
      FirstIndex(s, FirstAppearances(s)[i]) < FirstIndex(s, FirstAppearances(s)[j])
  {
    if s != [] {
      var init := s[..|s| - 1];
      var p := FirstAppearances(init);
      FirstAppearancesOrder(init);
      assert s == init + [s[|s| - 1]];
      forall i | 0 <= i < |p|
        ensures FirstIndex(s, p[i]) == FirstIndex(init, p[i]) < |s| - 1
      {
        FirstIndexInPrefix(s, |s| - 1, p[i]);
      }
      if s[|s| - 1] !in p {
        assert FirstIndex(s, s[|s| - 1]) == |s| - 1;
      }
    }
  }

  /** A value already seen adds nothing; a new one is listed last. */
  lemma FirstAppearancesSnoc(s: seq<string>, x: string)
    ensures FirstAppearances(s + [x]) == if x in s then FirstAppearances(s) else FirstAppearances(s) + [x]
  {
    assert (s + [x])[..|s|] == s;
  }

  /** Every technology's group key, in input order. */
  function Categories(techs: seq<Technology>): (r: seq<string>)
    ensures |r| == |techs|
    ensures forall i :: 0 <= i < |techs| ==> r[i] == CategoryOf(techs[i])
  {
    seq(|techs|, i requires 0 <= i < |techs| => CategoryOf(techs[i]))
  }

  /** The group keys of a list, in first-occurrence order. */
  function GroupKeys(techs: seq<Technology>): seq<string>
  {
    FirstAppearances(Categories(techs))
  }

  /** One more technology opens a new group exactly when its category has not occurred yet. */
  lemma GroupKeysStep(p: seq<Technology>, t: Technology)
    ensures CategoryOf(t) in GroupKeys(p) <==> CategoryOf(t) in Categories(p)
    ensures GroupKeys(p + [t]) ==
      if CategoryOf(t) in GroupKeys(p) then GroupKeys(p) else GroupKeys(p) + [CategoryOf(t)]
  {
    var s := Categories(p + [t]);
    assert s[..|s| - 1] == Categories(p);
  }

  /** A category no technology has has an empty group. */
  lemma {:induction false} GroupOfAbsentCategory(p: seq<Technology>, c: string)
    requires c !in Categories(p)
    ensures Group(p, c) == []
  {
    if p != [] {
      assert Categories(p)[0] == CategoryOf(p[0]);
      assert forall k :: 0 <= k < |p| - 1 ==> Categories(p[1..])[k] == Categories(p)[k + 1];
      GroupOfAbsentCategory(p[1..], c);
    }
  }

  /** One more technology joins the end of its own group and no other. */
  lemma GroupStep(p: seq<Technology>, t: Technology, c: string)
    ensures Group(p + [t], c) == Group(p, c) + (if CategoryOf(t) == c then [t] else [])
  {
    FilterAppend(p, [t], InCategory(c));
    FilterSingleton(t, InCategory(c));
  }

  /** `keys` and `groups` are the grouping of `p`: the state of the `reduce` after `p`. */
  ghost predicate GroupedAs(p: seq<Technology>, keys: seq<string>, groups: map<string, seq<Technology>>)
  {
    && keys == GroupKeys(p)
    && (forall c :: c in groups <==> c in keys)
    && forall c :: c in groups ==> groups[c] == Group(p, c)
  }

  /** One step of the `reduce` on a category already seen: append to its group. */
  lemma GroupedStepSeen(p: seq<Technology>, t: Technology, keys: seq<string>, groups: map<string, seq<Technology>>)
    requires GroupedAs(p, keys, groups) && CategoryOf(t) in groups
    ensures GroupedAs(p + [t], keys, groups[CategoryOf(t) := groups[CategoryOf(t)] + [t]])
  {
    GroupKeysSeen(p, t);
    AppendToGroup(p, t, keys, groups);
    SameKeysAfterUpdate(groups, CategoryOf(t), groups[CategoryOf(t)] + [t]);
  }

  lemma SameKeysAfterUpdate<K, V>(m: map<K, V>, k: K, v: V)
    requires k in m
    ensures m[k := v].Keys == m.Keys
  {
  }

  /** A technology of a category already seen leaves the key order as it was. */
  lemma GroupKeysSeen(p: seq<Technology>, t: Technology)
    requires CategoryOf(t) in GroupKeys(p)
    ensures GroupKeys(p + [t]) == GroupKeys(p)
  {
    GroupKeysStep(p, t);
  }

  /** One step of the `reduce` on a new category: open its group, then append to it. */
  lemma GroupedStepNew(p: seq<Technology>, t: Technology, keys: seq<string>, groups: map<string, seq<Technology>>)
    requires GroupedAs(p, keys, groups) && CategoryOf(t) !in groups
    ensures GroupedAs(p + [t], keys + [CategoryOf(t)], groups[CategoryOf(t) := []][CategoryOf(t) := [t]])
  {
    var c := CategoryOf(t);
    GroupKeysStep(p, t);
    GroupOfAbsentCategory(p, c);
    var keys' := keys + [c];
    var withGroup := groups[c := []];
    AppendToGroup(p, t, keys', withGroup);
    assert withGroup[c] + [t] == [t];
    var after := withGroup[c := [t]];
    assert keys' == GroupKeys(p + [t]);
    assert forall x :: x in after <==> x in keys';
  }

  /** Appending a technology to its (already open) group keeps the groups equal to the filters. */
  lemma AppendToGroup(p: seq<Technology>, t: Technology, keys: seq<string>, groups: map<string, seq<Technology>>)
    requires CategoryOf(t) in groups
    requires forall c :: c in groups ==> groups[c] == Group(p, c)
    ensures var after := groups[CategoryOf(t) := groups[CategoryOf(t)] + [t]];
      forall d :: d in after ==> after[d] == Group(p + [t], d)
  {
    var after := groups[CategoryOf(t) := groups[CategoryOf(t)] + [t]];
    forall d | d in after
      ensures after[d] == Group(p + [t], d)
    {
      GroupStep(p, t, d);
    }
  }

  /**
   * The grouping `reduce`: a pass over the list that opens a group at a category's first
   * technology and appends each technology to its group.
   */
  method Categorize(techs: seq<Technology>) returns (keys: seq<string>, groups: map<string, seq<Technology>>)
    ensures keys == GroupKeys(techs)
    ensures forall c :: c in groups <==> c in keys
    ensures forall c :: c in groups ==> groups[c] == Group(techs, c)
  {
    keys, groups := [], map[];
    var i := 0;
    while i < |techs|
      invariant 0 <= i <= |techs|
      invariant GroupedAs(techs[..i], keys, groups)
    {
      var t := techs[i];
      var c := CategoryOf(t);
      assert techs[..i + 1] == techs[..i] + [t];
      if c !in groups {
        GroupedStepNew(techs[..i], t, keys, groups);
        keys := keys + [c];
        groups := groups[c := []];
      } else {
        GroupedStepSeen(techs[..i], t, keys, groups);
      }
      groups := groups[c := groups[c] + [t]];
      i := i + 1;
    }
    assert techs[..i] == techs;
  }

  /** The number of technologies in the groups `keys`. */
  function SumSizes(techs: seq<Technology>, keys: seq<string>): nat
  {
    if keys == [] then 0 else |Group(techs, keys[0])| + SumSizes(techs, keys[1..])
  }

  lemma {:induction false} SumSizesAppendKey(techs: seq<Technology>, keys: seq<string>, c: string)
    ensures SumSizes(techs, keys + [c]) == SumSizes(techs, keys) + |Group(techs, c)|
  {
    if keys != [] {
      assert (keys + [c])[1..] == keys[1..] + [c];
      SumSizesAppendKey(techs, keys[1..], c);
    }
  }

  /** One more technology adds one to the groups of distinct `keys` exactly when its own key is among them. */
  lemma {:induction false} SumSizesStep(p: seq<Technology>, t: Technology, keys: seq<string>)
    requires forall i, j :: 0 <= i < j < |keys| ==> keys[i] != keys[j]
    ensures SumSizes(p + [t], keys) == SumSizes(p, keys) + (if CategoryOf(t) in keys then 1 else 0)
  {
    if keys != [] {
      GroupStep(p, t, keys[0]);
      assert CategoryOf(t) in keys <==> CategoryOf(t) == keys[0] || CategoryOf(t) in keys[1..];
      assert keys[0] !in keys[1..];
      SumSizesStep(p, t, keys[1..]);
    }
  }

  /** Every technology is in exactly one group, so the groups hold as many technologies as the list. */
  lemma {:induction false} GroupsCoverAll(techs: seq<Technology>)
    ensures SumSizes(techs, GroupKeys(techs)) == |techs|
  {
    if techs != [] {
      var p, t := techs[..|techs| - 1], techs[|techs| - 1];
      assert techs == p + [t];
      GroupsCoverAll(p);
      GroupKeysStep(p, t);
      var c := CategoryOf(t);
      SumSizesStep(p, t, GroupKeys(p));
      if c !in GroupKeys(p) {
        SumSizesAppendKey(p + [t], GroupKeys(p), c);
        GroupOfAbsentCategory(p, c);
        GroupStep(p, t, c);
      }
    }
  }

  /** A technology is in the group of its own category and in no other. */
  lemma InExactlyOneGroup(techs: seq<Technology>, i: int, c: string)
    requires 0 <= i < |techs|
    ensures CategoryOf(techs[i]) in GroupKeys(techs)
    ensures techs[i] in Group(techs, c) <==> c == CategoryOf(techs[i])
  {
    assert Categories(techs)[i] == CategoryOf(techs[i]);
    FilterMembers(techs, InCategory(c));
  }

  /** A rendered category section. */
  datatype Section = Section(category: string, icon: string, title: string, techs: seq<Technology>)

  /**
   * What the component renders: nothing for an empty list; otherwise one section per group, in
   * key order, headed by the category's icon and title.
   */
  method Sections(techs: seq<Technology>) returns (r: Option<seq<Section>>)
    ensures r.None? <==> |techs| == 0
    ensures r.Some? ==> |r.value| == |GroupKeys(techs)|
    ensures r.Some? ==> forall i :: 0 <= i < |r.value| ==>
      var c := GroupKeys(techs)[i];
      r.value[i] == Section(c, CategoryIcon(c), CategoryTitle(c), Group(techs, c))
  {
    if |techs| == 0 {
      return None;
    }
    var keys, groups := Categorize(techs);
    r := Some(seq(|keys|, i requires 0 <= i < |keys| => Section(keys[i], CategoryIcon(keys[i]), CategoryTitle(keys[i]), groups[keys[i]])));
  }

  /** `getCategoryIcon`: an icon per known category, "Code" for any other. */
  function CategoryIcon(category: string): (icon: string)
    ensures icon == "Code" <==> category !in KnownCategories
  {
    match category
    case "frontend" => "Monitor"
    case "backend" => "Server"
    case "database" => "Database"
    case "tools" => "Wrench"
    case "deployment" => "Cloud"
    case _ => "Code"
  }

  /** `getCategoryTitle`: a heading per known category, "Technologies" for any other. */
  function CategoryTitle(category: string): (title: string)
    ensures title == "Technologies" <==> category !in KnownCategories
  {
    match category
    case "frontend" => "Frontend"
    case "backend" => "Backend"
    case "database" => "Database"
    case "tools" => "Tools & Libraries"
    case "deployment" => "Deployment"
    case _ => "Technologies"
  }

  const KnownCategories: set<string> := {"frontend", "backend", "database", "tools", "deployment"}

  /** Known categories get distinct headings, so no two sections of a known category look alike. */
  lemma TitlesDistinguishKnownCategories(a: string, b: string)
    requires a in KnownCategories && b in KnownCategories && a != b
    ensures CategoryTitle(a) != CategoryTitle(b)
  {
  }
}
