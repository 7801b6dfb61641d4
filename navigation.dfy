/**
 * The side menu of the console layout: the fixed list of menu entries and the
 * choice of the highlighted entry from the current path.
 */
module Navigation {
  import opened Wrappers
  import opened Text

  /** A menu entry: a page with its route key and caption, or a divider, which has no key. */
  datatype MenuEntry = Item(key: string, caption: string) | Divider

  /** `menuItems`, in order; the two dividers separate the operations, marketing and settings groups. */
  const MenuItems: seq<MenuEntry> := [
    Item("/", "대시보드"),
    Item("/stores/settings", "가게설정"),
    Item("/customers", "유저 관리"),
    Item("/stores", "가게 관리"),
    Item("/orders", "주문 관리"),
    Item("/settlements", "정산 관리"),
    Item("/reviews", "리뷰 관리"),
    Item("/reports", "신고/블랙리스트"),
    Divider,
    Item("/banners", "배너 관리"),
    Item("/coupons", "쿠폰 관리"),
    Item("/push", "푸시 알림"),
    Divider,
    Item("/settings", "설정")]

  /**
   * The string `startsWith` receives for an entry's key: the key itself, or,
   * for a divider whose key is `undefined`, the text "undefined".
   */
  function KeyText(e: MenuEntry): string {
    if e.Item? then e.key else "undefined"
  }

  /** The `find` test: the key is not "/" (a divider's `undefined` is not) and it starts the path. */
  predicate Matches(e: MenuEntry, pathname: string) {
    (e.Divider? || e.key != "/") && StartsWith(pathname, KeyText(e))
  }

  /** `Array.prototype.find` as an index: the first entry that matches, if any. */
  function FindMatch(entries: seq<MenuEntry>, pathname: string): (r: Option<nat>)
    ensures r.Some? ==> (r.value < |entries| && Matches(entries[r.value], pathname)
      && forall j :: 0 <= j < r.value ==> !Matches(entries[j], pathname))
    ensures r.None? ==> forall j :: 0 <= j < |entries| ==> !Matches(entries[j], pathname)
    decreases |entries|
  {
    if entries == [] then None
    else if Matches(entries[0], pathname) then Some(0)
    else match FindMatch(entries[1..], pathname)
      case None => None
      case Some(k) => Some(k + 1)
  }

  /**
   * `getSelectedKey`: "/" for the root path; otherwise the key of the first
   * matching entry, or "/" when nothing matches (or the match has no key).
   */
  function SelectedKey(pathname: string): string {
    if pathname == "/" then "/"
    else match FindMatch(MenuItems, pathname)
      case None => "/"
      case Some(i) => if MenuItems[i].Item? && MenuItems[i].key != "" then MenuItems[i].key else "/"
  }

  /** The highlighted key is always "/" or the key of a menu item. */
  lemma SelectedKeyIsMenuKey(pathname: string)
    ensures SelectedKey(pathname) == "/"
      || exists i :: 0 <= i < |MenuItems| && MenuItems[i].Item? && MenuItems[i].key == SelectedKey(pathname)
  {
    if pathname != "/" {
      match FindMatch(MenuItems, pathname)
      case None =>
      case Some(i) =>
    }
  }

  /** No route starting with "/" is begun by "undefined": dividers never match a real path. */
  lemma DividersNeverMatch(pathname: string)
    requires |pathname| > 0 && pathname[0] == '/'
    ensures forall i :: 0 <= i < |MenuItems| && MenuItems[i].Divider? ==> !Matches(MenuItems[i], pathname)
  {
    assert "undefined"[0] != '/';
  }

  /** Every item of the menu has a non-empty key. */
  lemma MenuKeysNonEmpty()
    ensures forall i :: 0 <= i < |MenuItems| && MenuItems[i].Item? ==> MenuItems[i].key != ""
  {
  }

  /**
   * Over any entry list whose items have non-empty keys and whose dividers do
   * not match: the first match is an item, and its key is the first key in
   * list order that is not "/" and is a prefix of the path.
   */
  lemma {:induction false} FirstPrefixOf(entries: seq<MenuEntry>, pathname: string)
    requires forall i :: 0 <= i < |entries| && entries[i].Item? ==> entries[i].key != ""
    requires forall i :: 0 <= i < |entries| && entries[i].Divider? ==> !Matches(entries[i], pathname)
    ensures FindMatch(entries, pathname).Some? <==>
      exists i :: 0 <= i < |entries| && entries[i].Item? && entries[i].key != "/" && StartsWith(pathname, entries[i].key)
    ensures FindMatch(entries, pathname).Some? ==> var i := FindMatch(entries, pathname).value;
      && entries[i].Item? && entries[i].key != "" && entries[i].key != "/" && StartsWith(pathname, entries[i].key)
      && forall j :: 0 <= j < i && entries[j].Item? && entries[j].key != "/" ==> !StartsWith(pathname, entries[j].key)
  {
    match FindMatch(entries, pathname)
    case None =>
      forall i | 0 <= i < |entries| && entries[i].Item? && entries[i].key != "/"
        ensures !StartsWith(pathname, entries[i].key)
      {
        assert !Matches(entries[i], pathname);
      }
    case Some(i) =>
      assert entries[i].Item?;
      forall j | 0 <= j < i && entries[j].Item? && entries[j].key != "/"
        ensures !StartsWith(pathname, entries[j].key)
      {
        assert !Matches(entries[j], pathname);
      }
  }

  /**
   * For a path other than "/" that starts with "/", the highlighted key is
   * the first item key, in menu order, that is not "/" and is a prefix of the
   * path; when there is none, "/" is highlighted.
   */
  lemma SelectedKeyIsFirstPrefix(pathname: string)
    requires pathname != "/" && |pathname| > 0 && pathname[0] == '/'
    ensures SelectedKey(pathname) != "/" <==>
      exists i :: 0 <= i < |MenuItems| && MenuItems[i].Item? && MenuItems[i].key != "/" && StartsWith(pathname, MenuItems[i].key)
    ensures SelectedKey(pathname) != "/" ==> exists i :: (
      && 0 <= i < |MenuItems| && MenuItems[i].Item? && MenuItems[i].key == SelectedKey(pathname)
      && StartsWith(pathname, MenuItems[i].key)
      && forall j :: 0 <= j < i && MenuItems[j].Item? && MenuItems[j].key != "/" ==> !StartsWith(pathname, MenuItems[j].key))
  {
    DividersNeverMatch(pathname);
    MenuKeysNonEmpty();
    FirstPrefixOf(MenuItems, pathname);
  }

  /** The root path highlights the dashboard. */
  lemma RootSelectsDashboard()
    ensures SelectedKey("/") == "/"
  {
  }

  /** A path under the store settings highlights 가게설정, which is listed before 가게 관리. */
  lemma StoreSettingsBeforeStores()
    ensures SelectedKey("/stores/settings/3") == "/stores/settings"
  {
    var p := "/stores/settings/3";
    assert StartsWith(p, "/stores/settings");
    assert Matches(MenuItems[1], p);
    assert FindMatch(MenuItems, p) == Some(1) by {
      assert !Matches(MenuItems[0], p);
    }
  }

  /** A store detail path highlights 가게 관리: 가게설정 and 유저 관리 do not start it. */
  lemma StoreDetailSelectsStores()
    ensures SelectedKey("/stores/7") == "/stores"
  {
    var p := "/stores/7";
    assert !StartsWith(p, "/stores/settings") by { assert |"/stores/settings"| > |p|; }
    assert !StartsWith(p, "/customers") by { assert p[1] != "/customers"[1]; }
    assert StartsWith(p, "/stores");
    assert FindMatch(MenuItems, p) == Some(3) by {
      assert !Matches(MenuItems[0], p) && !Matches(MenuItems[1], p) && !Matches(MenuItems[2], p);
      assert Matches(MenuItems[3], p);
    }
  }

  /** Matching is by plain prefix, not by path segment: "/storesX" highlights 가게 관리 too. */
  lemma PrefixNotSegment()
    ensures SelectedKey("/storesX") == "/stores"
  {
    var p := "/storesX";
    assert !StartsWith(p, "/stores/settings") by { assert |"/stores/settings"| > |p|; }
    assert !StartsWith(p, "/customers") by { assert p[1] != "/customers"[1]; }
    assert StartsWith(p, "/stores");
    assert FindMatch(MenuItems, p) == Some(3) by {
      assert !Matches(MenuItems[0], p) && !Matches(MenuItems[1], p) && !Matches(MenuItems[2], p);
      assert Matches(MenuItems[3], p);
    }
  }
}
