/**
 * The planning tools page: four tabs, the first shown at first, and a tab
 * chosen from the fragment of the page's location when it names one.
 */
module PlanningToolsPage {
  import opened Wrappers
  import opened Strings

  /** The tabs, in order; the first is shown when the page opens. */
  const ValidTabs: seq<string> := ["strategy-builder", "comparison-matrix", "cost-calculator", "risk-assessment"]

  const InitialTab := ValidTabs[0]

  predicate IsTab(tab: string) {
    tab == ValidTabs[0] || tab == ValidTabs[1] || tab == ValidTabs[2] || tab == ValidTabs[3]
  }

  /** `location.split("#")[1]`: the text between the first and second `#`, or none without a `#`. */
  function HashOf(location: string): (h: Option<string>)
    ensures h.Some? ==> '#' !in h.value
  {
    var parts := Split(location, '#');
    if |parts| > 1 then Some(parts[1]) else None
  }

  /** The fragment is what follows the first `#`; a location without `#` has none. */
  lemma HashAfter(path: string, fragment: string)
    requires '#' !in path && '#' !in fragment
    ensures HashOf(path + "#" + fragment) == Some(fragment)
    ensures HashOf(path) == None
  {
    SplitAtFirst(path, '#', fragment);
    SplitWithoutSeparator(fragment, '#');
    SplitWithoutSeparator(path, '#');
  }

  /** A second `#` ends the fragment. */
  lemma HashBetween(path: string, fragment: string, rest: string)
    requires '#' !in path && '#' !in fragment
    ensures HashOf(path + "#" + fragment + "#" + rest) == Some(fragment)
  {
    assert path + "#" + fragment + "#" + rest == path + ['#'] + (fragment + ['#'] + rest);
    SplitAtFirst(path, '#', fragment + ['#'] + rest);
    SplitAtFirst(fragment, '#', rest);
  }

  /** The location effect: a fragment that names a tab selects it; none, an empty or an unknown one changes nothing. */
  function SelectTab(activeTab: string, location: string): (tab: string)
    ensures HashOf(location).Some? && IsTab(HashOf(location).value) ==> tab == HashOf(location).value
    ensures !(HashOf(location).Some? && IsTab(HashOf(location).value)) ==> tab == activeTab
  {
    var hash := HashOf(location);
    if hash.Some? && hash.value != "" && IsTab(hash.value) then hash.value else activeTab
  }

  /** `onValueChange` of the tab list: a trigger supplies its own tab value. */
  function TriggerTab(activeTab: string, trigger: nat): (tab: string)
    requires trigger < |ValidTabs|
    ensures IsTab(tab)
  {
    ValidTabs[trigger]
  }

  /** Whatever locations arrive and triggers are pressed, the shown tab is always one of the four. */
  lemma TabAlwaysValid(activeTab: string, location: string, trigger: nat)
    requires IsTab(activeTab) && trigger < |ValidTabs|
    ensures IsTab(SelectTab(activeTab, location))
    ensures IsTab(TriggerTab(activeTab, trigger))
    ensures IsTab(InitialTab)
  {
  }

  /** No tab name holds a `#`. */
  lemma TabHasNoHash(tab: string)
    requires IsTab(tab)
    ensures '#' !in tab
  {
    assert forall k :: 0 <= k < |tab| ==> 'a' <= tab[k] <= 'z' || tab[k] == '-';
  }

  /** A location whose fragment is a tab name, such as "/planning-tools#cost-calculator", shows that tab. */
  lemma DirectLink(activeTab: string, path: string, tab: string)
    requires '#' !in path && IsTab(tab)
    ensures SelectTab(activeTab, path + "#" + tab) == tab
  {
    TabHasNoHash(tab);
    HashAfter(path, tab);
  }
}
