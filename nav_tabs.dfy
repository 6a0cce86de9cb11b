/** The selected tab of the navigation strip (src/components/nav-tabs.tsx). */
module NavTabs {

  import opened Strings

  const DefaultTab := "circle-chart"

  /**
   * The tab id for a location path: one leading `/` removed, and the pitch
   * tab when nothing is left.
   */
  function SelectedTabId(pathname: string): (r: string)
    ensures r != ""
    ensures StartsWith(pathname, "/") && |pathname| > 1 ==> r == pathname[1..]
    ensures !StartsWith(pathname, "/") && pathname != "" ==> r == pathname
    ensures pathname == "" || pathname == "/" ==> r == DefaultTab
  {
    var stripped := if StartsWith(pathname, "/") then pathname[1..] else pathname;
    if stripped == "" then DefaultTab else stripped
  }

  /** Prefixing a non-empty tab id with `/` selects that tab: the path and the id round-trip. */
  lemma TabPathRoundTrip(id: string)
    requires id != ""
    ensures SelectedTabId("/" + id) == id
  {
    assert ("/" + id)[1..] == id;
  }

  /** Only one slash is stripped: `//x` selects `/x`. */
  lemma OnlyOneSlashStripped(rest: string)
    ensures SelectedTabId("//" + rest) == "/" + rest
  {
    assert ("//" + rest)[1..] == "/" + rest;
  }
}
