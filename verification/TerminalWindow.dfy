/** `hasLiveAttachments`, packages/cli/src/terminal-window.ts:208-256: whether every tile of a saved view
    is still attached by a live local client.

    What the terminal multiplexers answer is input: the tabs, the panes, the clients with the attach
    commands each answers to, and the foreground processes of a pane when it is asked (none when the
    answer is malformed). */
module TerminalWindow {
  import opened Options

  datatype Tab = Tab(workspace: string, id: string, name: string)

  datatype Pane = Pane(workspace: string, tab: string, id: string)

  /** A tile is an attach command that some client should have been started with. */
  type Page = seq<string>

  datatype View = View(
    workspace: string,
    tabs: seq<Tab>,
    panes: seq<Pane>,
    pages: seq<Page>,
    nameOf: nat -> string,
    clients: map<string, seq<string>>,
    foreground: (nat, nat) -> Option<seq<string>>)

  /** Where a tile is expected, and what was found for it. */
  datatype Tile = Tile(page: nat, index: nat)
  datatype Place = Place(pane: nat, pid: string)

  // ---------------------------------------------------------------------------------------------
  // What a confirmed view means

  /** The tab with the page's label, if exactly one tab of the workspace has it. */
  predicate TheTab(v: View, page: nat, id: string) {
    exists t :: t in v.tabs && OfPage(v, page, t) && t.id == id
      && forall i, j :: 0 <= i < |v.tabs| && 0 <= j < |v.tabs| && OfPage(v, page, v.tabs[i]) && OfPage(v, page, v.tabs[j]) ==> i == j
  }

  predicate OfPage(v: View, page: nat, t: Tab) {
    t.workspace == v.workspace && t.name == v.nameOf(page)
  }

  /** The tile is served by a live client, attached with the tile's command, in a pane of the page's tab. */
  predicate Serves(v: View, t: Tile, p: Place) {
    && t.page < |v.pages| && t.index < |v.pages[t.page]|
    && p.pane < |v.panes| && TheTab(v, t.page, v.panes[p.pane].tab)
    && v.foreground(t.page, p.pane).Some? && p.pid in v.foreground(t.page, p.pane).value
    && p.pid in v.clients && v.pages[t.page][t.index] in v.clients[p.pid]
  }

  /** No client serves two tiles, and no pane two of one page. */
  predicate Distinct(a: map<Tile, Place>) {
    forall s, t :: s in a && t in a && s != t ==> a[s].pid != a[t].pid && (s.page == t.page ==> a[s].pane != a[t].pane)
  }

  predicate Assignment(v: View, a: map<Tile, Place>) {
    Distinct(a) && forall t :: t in a ==> Serves(v, t, a[t])
  }

  /** Every tile of the first `n` pages is assigned. */
  predicate Covers(v: View, a: map<Tile, Place>, n: nat)
    requires n <= |v.pages|
  {
    forall i, j :: 0 <= i < n && 0 <= j < |v.pages[i]| ==> Tile(i, j) in a
  }

  ghost predicate HasTab(v: View, page: nat) {
    exists tab :: TheTab(v, page, tab)
  }

  ghost function TabOf(v: View, page: nat): (tab: Option<string>)
    ensures tab.Some? ==> TheTab(v, page, tab.value)
    ensures tab.None? ==> !HasTab(v, page)
  {
    if HasTab(v, page) then
      var id :| TheTab(v, page, id);
      Some(id)
    else None
  }

  lemma TabIs(v: View, page: nat, id: string)
    requires TheTab(v, page, id)
    ensures TabOf(v, page) == Some(id)
  {
    assert HasTab(v, page);
    TabIsOne(v, page, id, TabOf(v, page).value);
  }

  // ---------------------------------------------------------------------------------------------
  // What the loops decide, in the order they look

  /** The first of the commands that the client answers to. */
  function FirstMatch(remaining: seq<string>, commands: seq<string>): (found: Option<nat>)
    ensures found.Some? ==> found.value < |remaining| && remaining[found.value] in commands
    ensures found.Some? ==> forall i :: 0 <= i < found.value ==> remaining[i] !in commands
    ensures found.None? ==> forall c :: c in remaining ==> c !in commands
  {
    if remaining == [] then None
    else if remaining[0] in commands then Some(0)
    else
      var rest := FirstMatch(remaining[1..], commands);
      if rest.Some? then Some(rest.value + 1) else None
  }

  /** The process takes a tile that is still missing. */
  predicate Takes(v: View, pid: string, remaining: seq<string>, used: set<string>) {
    pid !in used && pid in v.clients && FirstMatch(remaining, v.clients[pid]).Some?
  }

  /** A pane's processes in order: the first that takes a tile ends the search. */
  function PaneTakes(v: View, processes: seq<string>, remaining: seq<string>, used: set<string>): (seq<string>, set<string>) {
    if processes == [] then (remaining, used)
    else if Takes(v, processes[0], remaining, used) then
      (Cut(remaining, FirstMatch(remaining, v.clients[processes[0]]).value), used + {processes[0]})
    else PaneTakes(v, processes[1..], remaining, used)
  }

  /** The panes of a tab from the one at `pane` on; None when a pane's answer is malformed. */
  function TabTakes(v: View, page: nat, tab: string, pane: nat, remaining: seq<string>, used: set<string>)
    : Option<(seq<string>, set<string>)>
    decreases |v.panes| - pane
  {
    if pane >= |v.panes| then Some((remaining, used))
    else if v.panes[pane].tab != tab then TabTakes(v, page, tab, pane + 1, remaining, used)
    else if remaining == [] then Some((remaining, used))
    else
      var processes := v.foreground(page, pane);
      if processes.None? then None
      else
        var taken := PaneTakes(v, processes.value, remaining, used);
        TabTakes(v, page, tab, pane + 1, taken.0, taken.1)
  }

  /** The pages from `page` on are all served. */
  ghost predicate PagesServed(v: View, page: nat, used: set<string>)
    decreases |v.pages| - page
  {
    page >= |v.pages| || (
      var r := PageTakes(v, page, used);
      r.Some? && r.value.0 == [] && PagesServed(v, page + 1, r.value.1))
  }

  ghost function PageTakes(v: View, page: nat, used: set<string>): Option<(seq<string>, set<string>)>
    requires page < |v.pages|
  {
    var tab := TabOf(v, page);
    if tab.None? then None else TabTakes(v, page, tab.value, 0, v.pages[page], used)
  }

  /** Every pane listed is the workspace's, and has an id. */
  predicate PanesNamed(v: View) {
    forall p :: p in v.panes ==> p.workspace == v.workspace && p.id != ""
  }

  ghost predicate Confirms(v: View) {
    PanesNamed(v) && |v.pages| > 0 && PagesServed(v, 0, {})
  }

  lemma TabIsOne(v: View, page: nat, x: string, y: string)
    requires TheTab(v, page, x) && TheTab(v, page, y)
    ensures x == y
  {
    var s :| s in v.tabs && OfPage(v, page, s) && s.id == x;
    var t :| t in v.tabs && OfPage(v, page, t) && t.id == y;
    var i :| 0 <= i < |v.tabs| && v.tabs[i] == s;
    var j :| 0 <= j < |v.tabs| && v.tabs[j] == t;
  }

  // ---------------------------------------------------------------------------------------------
  // The loops

  /** `remaining.findIndex`. */
  method FindIndex(remaining: seq<string>, commands: seq<string>) returns (found: Option<nat>)
    ensures found == FirstMatch(remaining, commands)
    ensures found.Some? ==> found.value < |remaining| && remaining[found.value] in commands
    ensures found.Some? ==> forall i :: 0 <= i < found.value ==> remaining[i] !in commands
    ensures found.None? ==> forall c :: c in remaining ==> c !in commands
  {
    for i := 0 to |remaining|
      invariant forall j :: 0 <= j < i ==> remaining[j] !in commands
    {
      if remaining[i] in commands {
        return Some(i);
      }
    }
    return None;
  }

  /** The tab of the page, when exactly one tab of the workspace has its label. */
  method FindTab(v: View, page: nat) returns (tab: Option<string>)
    ensures tab.Some? ==> TheTab(v, page, tab.value)
    ensures tab.None? ==> forall id :: !TheTab(v, page, id)
  {
    var at: Option<nat> := None;
    for i := 0 to |v.tabs|
      invariant at.None? ==> forall j :: 0 <= j < i ==> !OfPage(v, page, v.tabs[j])
      invariant at.Some? ==> at.value < i && OfPage(v, page, v.tabs[at.value])
      invariant at.Some? ==> forall j :: 0 <= j < i && j != at.value ==> !OfPage(v, page, v.tabs[j])
    {
      if OfPage(v, page, v.tabs[i]) {
        if at.Some? {
          return None;
        }
        at := Some(i);
      }
    }
    if at.None? {
      return None;
    }
    assert v.tabs[at.value] in v.tabs;
    return Some(v.tabs[at.value].id);
  }

  /** The tiles still to be found, by their index in the page. */
  ghost predicate Pending(v: View, page: nat, remaining: seq<string>, tiles: seq<nat>, a: map<Tile, Place>)
    requires page < |v.pages|
  {
    && |remaining| == |tiles|
    && (forall i :: 0 <= i < |tiles| ==> Awaits(v, page, remaining[i], tiles[i], a))
    && (forall i, j :: 0 <= i < j < |tiles| ==> tiles[i] != tiles[j])
    && (forall k :: 0 <= k < |v.pages[page]| ==> Tile(page, k) in a || k in tiles)
  }

  predicate Awaits(v: View, page: nat, command: string, tile: nat, a: map<Tile, Place>)
    requires page < |v.pages|
  {
    tile < |v.pages[page]| && command == v.pages[page][tile] && Tile(page, tile) !in a
  }

  function Cut<T>(s: seq<T>, k: nat): (r: seq<T>)
    requires k < |s|
    ensures |r| == |s| - 1 && forall i :: 0 <= i < |r| ==> r[i] == s[if i < k then i else i + 1]
  {
    s[..k] + s[k + 1..]
  }

  predicate UsedAre(used: set<string>, a: map<Tile, Place>) {
    forall t :: t in a ==> a[t].pid in used
  }

  /** Panes of the page looked at so far are the ones before `n`. */
  predicate PanesBefore(a: map<Tile, Place>, page: nat, n: nat) {
    forall t :: t in a && t.page == page ==> a[t].pane < n
  }

  predicate NoTileFrom(a: map<Tile, Place>, page: nat) {
    forall t :: t in a ==> t.page < page
  }

  predicate UpTo(a: map<Tile, Place>, page: nat) {
    forall t :: t in a ==> t.page <= page
  }

  /** One pane: the first of its processes that serves a tile still missing takes that tile. */
  method ServePane(v: View, page: nat, pane: nat, processes: seq<string>, remaining: seq<string>, used: set<string>,
                   ghost tiles: seq<nat>, ghost a: map<Tile, Place>)
    returns (remaining': seq<string>, used': set<string>, ghost tiles': seq<nat>, ghost a': map<Tile, Place>)
    requires page < |v.pages| && pane < |v.panes| && TheTab(v, page, v.panes[pane].tab)
    requires v.foreground(page, pane) == Some(processes)
    requires Assignment(v, a) && Pending(v, page, remaining, tiles, a) && UsedAre(used, a)
    requires PanesBefore(a, page, pane) && UpTo(a, page)
    ensures Assignment(v, a') && Pending(v, page, remaining', tiles', a') && UsedAre(used', a')
    ensures PanesBefore(a', page, pane + 1) && UpTo(a', page)
    ensures forall t :: t in a ==> t in a'
    ensures (remaining', used') == PaneTakes(v, processes, remaining, used)
  {
    remaining', used', tiles', a' := remaining, used, tiles, a;
    assert processes[0..] == processes;
    for i := 0 to |processes|
      invariant remaining' == remaining && used' == used && tiles' == tiles && a' == a
      invariant PaneTakes(v, processes, remaining, used) == PaneTakes(v, processes[i..], remaining, used)
    {
      var pid := processes[i];
      assert processes[i..][0] == pid && processes[i..][1..] == processes[i + 1..];
      if pid !in used && pid in v.clients {
        var found := FindIndex(remaining, v.clients[pid]);
        if found.Some? {
          var k := found.value;
          ghost var t, p := Tile(page, tiles[k]), Place(pane, pid);
          TakenFromPending(v, page, remaining, tiles, a, k, p);
          TakenIsAssigned(v, a, used, t, p);
          remaining' := Cut(remaining, k);
          tiles' := Cut(tiles, k);
          used' := used + {pid};
          a' := a[t := p];
          return;
        }
      }
    }
  }

  lemma TakenIsAssigned(v: View, a: map<Tile, Place>, used: set<string>, t: Tile, p: Place)
    requires Assignment(v, a) && UsedAre(used, a) && PanesBefore(a, t.page, p.pane) && UpTo(a, t.page)
    requires Serves(v, t, p) && p.pid !in used && t !in a
    ensures var b := a[t := p];
      Assignment(v, b) && UsedAre(used + {p.pid}, b) && PanesBefore(b, t.page, p.pane + 1) && UpTo(b, t.page)
  {
  }

  lemma TakenFromPending(v: View, page: nat, remaining: seq<string>, tiles: seq<nat>, a: map<Tile, Place>, k: nat, p: Place)
    requires page < |v.pages| && Pending(v, page, remaining, tiles, a) && k < |tiles|
    ensures Pending(v, page, Cut(remaining, k), Cut(tiles, k), a[Tile(page, tiles[k]) := p])
  {
    var remaining', tiles', a' := Cut(remaining, k), Cut(tiles, k), a[Tile(page, tiles[k]) := p];
    forall i | 0 <= i < |tiles'| ensures Awaits(v, page, remaining'[i], tiles'[i], a') {
      var from := if i < k then i else i + 1;
      assert Awaits(v, page, remaining[from], tiles[from], a);
    }
    forall j | 0 <= j < |v.pages[page]| ensures Tile(page, j) in a' || j in tiles' {
      if Tile(page, j) !in a && j != tiles[k] {
        var i :| 0 <= i < |tiles| && tiles[i] == j;
        assert tiles'[if i < k then i else i - 1] == j;
      }
    }
  }

  lemma NothingThere(a: map<Tile, Place>, page: nat, k: nat)
    requires NoTileFrom(a, page)
    ensures Tile(page, k) !in a
  {
  }

  /** One page: its tab, and the panes of that tab in order. */
  method ServePage(v: View, page: nat, used: set<string>, ghost a: map<Tile, Place>)
    returns (ok: bool, used': set<string>, ghost a': map<Tile, Place>)
    requires page < |v.pages| && Assignment(v, a) && UsedAre(used, a) && NoTileFrom(a, page)
    ensures ok ==> Assignment(v, a') && UsedAre(used', a') && UpTo(a', page)
    ensures ok ==> (forall t :: t in a ==> t in a') && forall j :: 0 <= j < |v.pages[page]| ==> Tile(page, j) in a'
    ensures PagesServed(v, page, used) <==> ok && PagesServed(v, page + 1, used')
  {
    ok, used', a' := false, used, a;
    var tab := FindTab(v, page);
    if tab.None? {
      return;
    }
    TabIs(v, page, tab.value);
    var remaining := v.pages[page];
    ghost var tiles: seq<nat> := seq(|remaining|, i => i);
    forall k | 0 <= k < |remaining| ensures Awaits(v, page, remaining[k], tiles[k], a) && k in tiles {
      NothingThere(a, page, k);
      assert tiles[k] == k;
    }
    for pane := 0 to |v.panes|
      invariant Assignment(v, a') && Pending(v, page, remaining, tiles, a') && UsedAre(used', a')
      invariant PanesBefore(a', page, pane) && UpTo(a', page)
      invariant forall t :: t in a ==> t in a'
      invariant TabTakes(v, page, tab.value, 0, v.pages[page], used)
             == TabTakes(v, page, tab.value, pane, remaining, used')
    {
      if v.panes[pane].tab == tab.value {
        if |remaining| == 0 {
          assert TabTakes(v, page, tab.value, 0, v.pages[page], used) == Some((remaining, used'));
          break;
        }
        var processes := v.foreground(page, pane);
        if processes.None? {
          return;
        }
        remaining, used', tiles, a' := ServePane(v, page, pane, processes.value, remaining, used', tiles, a');
      }
    }
    ok := |remaining| == 0;
  }

  /** `hasLiveAttachments`. When it confirms, each expected tile of every page has its own live client,
      attached with the tile's command, in a pane of the page's one tab that serves no other tile of the
      page. */
  method HasLiveAttachments(v: View) returns (ok: bool, ghost a: map<Tile, Place>)
    ensures ok ==> |v.pages| > 0 && Assignment(v, a) && Covers(v, a, |v.pages|)
    ensures ok <==> Confirms(v)
  {
    ok, a := false, map[];
    for i := 0 to |v.panes|
      invariant forall j :: 0 <= j < i ==> v.panes[j].workspace == v.workspace && v.panes[j].id != ""
    {
      if v.panes[i].workspace != v.workspace || v.panes[i].id == "" {
        return;
      }
    }
    var used: set<string> := {};
    for page := 0 to |v.pages|
      invariant Assignment(v, a) && UsedAre(used, a) && NoTileFrom(a, page) && Covers(v, a, page)
      invariant PagesServed(v, 0, {}) <==> PagesServed(v, page, used)
    {
      var served;
      ghost var a';
      served, used, a' := ServePage(v, page, used, a);
      if !served {
        return;
      }
      a := a';
    }
    ok := |v.pages| > 0;
  }

  // ---------------------------------------------------------------------------------------------
  // When a view that could be matched is confirmed

  /** Some assignment serves every tile. */
  ghost predicate Covered(v: View) {
    exists a :: Assignment(v, a) && Covers(v, a, |v.pages|)
  }

  /** Every page has its one tab. */
  ghost predicate PagesTabbed(v: View) {
    forall page: nat :: page < |v.pages| ==> HasTab(v, page)
  }

  predicate IsTile(v: View, t: Tile) {
    t.page < |v.pages| && t.index < |v.pages[t.page]|
  }

  /** The client would serve the tile. */
  predicate Fits(v: View, pid: string, t: Tile) {
    IsTile(v, t) && pid in v.clients && v.pages[t.page][t.index] in v.clients[pid]
  }

  /** A process in the foreground of the page's pane would serve a tile of the page. */
  ghost predicate Offers(v: View, page: nat, pane: nat, pid: string) {
    && page < |v.pages| && pane < |v.panes| && TheTab(v, page, v.panes[pane].tab)
    && v.foreground(page, pane).Some? && pid in v.foreground(page, pane).value
    && exists t: Tile :: t.page == page && Fits(v, pid, t)
  }

  /** Every client would serve at most one tile of the view, no pane has two processes that would serve its
      page's tiles, and every pane of a page's tab answers. */
  ghost predicate PlainlyArranged(v: View) {
    && (forall pid, s, t :: Fits(v, pid, s) && Fits(v, pid, t) ==> s == t)
    && (forall page, pane, p, q :: Offers(v, page, pane, p) && Offers(v, page, pane, q) ==> p == q)
    && (forall page: nat, pane: nat :: page < |v.pages| && pane < |v.panes| && TheTab(v, page, v.panes[pane].tab) ==>
          v.foreground(page, pane).Some?)
  }

  /** What an assignment says of the tiles still missing: each is assigned to a pane not yet looked at. */
  ghost predicate Ahead(v: View, a: map<Tile, Place>, page: nat, pane: nat, remaining: seq<string>) {
    forall c :: c in remaining ==>
      exists t :: t in a && t.page == page && IsTile(v, t) && v.pages[page][t.index] == c && a[t].pane >= pane
  }

  predicate NoDuplicates(s: seq<string>) {
    forall i, j :: 0 <= i < j < |s| ==> s[i] != s[j]
  }

  /** A used client's tile is on an earlier page, or no longer missing. */
  ghost predicate Spent(v: View, page: nat, remaining: seq<string>, used: set<string>) {
    forall pid :: pid in used ==>
      exists t :: Fits(v, pid, t) && (t.page < page || (t.page == page && v.pages[page][t.index] !in remaining))
  }

  ghost predicate OnCourse(v: View, a: map<Tile, Place>, page: nat, pane: nat, remaining: seq<string>, used: set<string>) {
    NoDuplicates(remaining) && Ahead(v, a, page, pane, remaining) && Spent(v, page, remaining, used)
  }

  /** A process that takes a tile takes the one that it fits. */
  lemma TakesItsOwn(v: View, a: map<Tile, Place>, page: nat, pane: nat, remaining: seq<string>, used: set<string>, pid: string)
    requires PlainlyArranged(v) && OnCourse(v, a, page, pane, remaining, used) && Takes(v, pid, remaining, used)
    ensures exists t :: t in a && t.page == page && Fits(v, pid, t)
                        && v.pages[page][t.index] == remaining[FirstMatch(remaining, v.clients[pid]).value]
  {
    var c := remaining[FirstMatch(remaining, v.clients[pid]).value];
    assert c in remaining;
    var t :| t in a && t.page == page && IsTile(v, t) && v.pages[page][t.index] == c && a[t].pane >= pane;
    assert Fits(v, pid, t);
  }

  /** After one tile is taken by a client that fits it. */
  lemma CutOnCourse(v: View, a: map<Tile, Place>, page: nat, pane: nat, remaining: seq<string>, used: set<string>,
                    pid: string, k: nat)
    requires OnCourse(v, a, page, pane, remaining, used) && k < |remaining|
    requires exists t: Tile :: t.page == page && Fits(v, pid, t) && v.pages[page][t.index] == remaining[k]
    ensures OnCourse(v, a, page, pane, Cut(remaining, k), used + {pid}) && remaining[k] !in Cut(remaining, k)
    ensures forall c :: c in Cut(remaining, k) ==> c in remaining
  {
    var rest := Cut(remaining, k);
    forall i | 0 <= i < |rest| ensures rest[i] in remaining && rest[i] != remaining[k] {
      assert rest[i] == remaining[if i < k then i else i + 1];
    }
    forall i, j | 0 <= i < j < |rest| ensures rest[i] != rest[j] {
      assert rest[i] == remaining[if i < k then i else i + 1] && rest[j] == remaining[if j < k then j else j + 1];
    }
    forall p | p in used + {pid}
      ensures exists t :: Fits(v, p, t) && (t.page < page || (t.page == page && v.pages[page][t.index] !in rest))
    {
      if p in used {
        var t :| Fits(v, p, t) && (t.page < page || (t.page == page && v.pages[page][t.index] !in remaining));
      } else {
        var t: Tile :| t.page == page && Fits(v, pid, t) && v.pages[page][t.index] == remaining[k];
      }
    }
  }

  /** One pane of the tab: whichever tile is assigned to it is not missing afterwards. */
  lemma {:induction false} PaneOnCourse(v: View, a: map<Tile, Place>, page: nat, pane: nat, processes: seq<string>,
                                        remaining: seq<string>, used: set<string>)
    requires PlainlyArranged(v) && Assignment(v, a) && OnCourse(v, a, page, pane, remaining, used)
    requires page < |v.pages| && pane < |v.panes| && TheTab(v, page, v.panes[pane].tab)
    requires v.foreground(page, pane).Some? && forall pid :: pid in processes ==> pid in v.foreground(page, pane).value
    ensures var (r, u) := PaneTakes(v, processes, remaining, used);
      && OnCourse(v, a, page, pane, r, u) && (forall c :: c in r ==> c in remaining)
      && forall t :: t in a && t.page == page && IsTile(v, t) && a[t].pane == pane && a[t].pid in processes ==>
           v.pages[page][t.index] !in r
    decreases |processes|
  {
    if processes != [] {
      var pid := processes[0];
      assert pid in processes;
      if Takes(v, pid, remaining, used) {
        TakesItsOwn(v, a, page, pane, remaining, used, pid);
        CutOnCourse(v, a, page, pane, remaining, used, pid, FirstMatch(remaining, v.clients[pid]).value);
        TookTheOne(v, a, page, pane, remaining, used, pid);
      } else {
        PaneOnCourse(v, a, page, pane, processes[1..], remaining, used);
        NothingToTake(v, a, page, pane, remaining, used, pid);
      }
    }
  }

  /** The process that took a tile is the only one that offers; it took the tile assigned to the pane. */
  lemma TookTheOne(v: View, a: map<Tile, Place>, page: nat, pane: nat, remaining: seq<string>, used: set<string>, pid: string)
    requires PlainlyArranged(v) && Assignment(v, a) && OnCourse(v, a, page, pane, remaining, used)
    requires Takes(v, pid, remaining, used) && page < |v.pages| && pane < |v.panes| && TheTab(v, page, v.panes[pane].tab)
    requires v.foreground(page, pane).Some? && pid in v.foreground(page, pane).value
    ensures var rest := Cut(remaining, FirstMatch(remaining, v.clients[pid]).value);
      forall t :: t in a && t.page == page && IsTile(v, t) && a[t].pane == pane ==> v.pages[page][t.index] !in rest
  {
    var k := FirstMatch(remaining, v.clients[pid]).value;
    TakesItsOwn(v, a, page, pane, remaining, used, pid);
    var s :| s in a && s.page == page && Fits(v, pid, s) && v.pages[page][s.index] == remaining[k];
    CutOnCourse(v, a, page, pane, remaining, used, pid, k);
    forall t | t in a && t.page == page && IsTile(v, t) && a[t].pane == pane
      ensures v.pages[page][t.index] == remaining[k]
    {
      assert Serves(v, t, a[t]) && Fits(v, a[t].pid, t);
      assert Offers(v, page, pane, a[t].pid) && Offers(v, page, pane, pid);
      assert t == s;
    }
  }

  /** A process that takes nothing has no missing tile assigned. */
  lemma NothingToTake(v: View, a: map<Tile, Place>, page: nat, pane: nat, remaining: seq<string>, used: set<string>, pid: string)
    requires PlainlyArranged(v) && Assignment(v, a) && Spent(v, page, remaining, used) && !Takes(v, pid, remaining, used)
    ensures forall t :: t in a && t.page == page && IsTile(v, t) && a[t].pid == pid ==>
      v.pages[page][t.index] !in remaining
  {
    forall t | t in a && t.page == page && IsTile(v, t) && a[t].pid == pid
      ensures v.pages[page][t.index] !in remaining
    {
      assert Serves(v, t, a[t]) && Fits(v, pid, t);
      if pid in used {
        var s :| Fits(v, pid, s) && (s.page < page || (s.page == page && v.pages[page][s.index] !in remaining));
        assert s == t;
      }
    }
  }

  /** A tile that is missing is assigned to a pane. */
  lemma MissingIsAhead(v: View, a: map<Tile, Place>, page: nat, pane: nat, remaining: seq<string>)
    requires Assignment(v, a) && Ahead(v, a, page, pane, remaining) && page < |v.pages| && remaining != []
    ensures pane < |v.panes|
  {
    var c := remaining[0];
    assert c in remaining;
    var t :| t in a && t.page == page && IsTile(v, t) && v.pages[page][t.index] == c && a[t].pane >= pane;
    assert Serves(v, t, a[t]);
  }

  lemma {:induction false} TabOnCourse(v: View, a: map<Tile, Place>, page: nat, tab: string, pane: nat,
                                       remaining: seq<string>, used: set<string>)
    requires PlainlyArranged(v) && Assignment(v, a) && OnCourse(v, a, page, pane, remaining, used)
    requires page < |v.pages| && TheTab(v, page, tab)
    ensures var r := TabTakes(v, page, tab, pane, remaining, used);
      r.Some? && r.value.0 == [] && Spent(v, page, [], r.value.1)
    decreases |v.panes| - pane
  {
    if remaining != [] {
      MissingIsAhead(v, a, page, pane, remaining);
    }
    if pane >= |v.panes| {
    } else if v.panes[pane].tab != tab {
      OtherTab(v, a, page, tab, pane, remaining);
      TabOnCourse(v, a, page, tab, pane + 1, remaining, used);
    } else if remaining != [] {
      var processes := v.foreground(page, pane).value;
      var (r, u) := PaneTakes(v, processes, remaining, used);
      PaneOnCourse(v, a, page, pane, processes, remaining, used);
      PastPane(v, a, page, pane, r);
      TabOnCourse(v, a, page, tab, pane + 1, r, u);
    }
  }

  /** No tile of the page is assigned to a pane of another tab. */
  lemma OtherTab(v: View, a: map<Tile, Place>, page: nat, tab: string, pane: nat, remaining: seq<string>)
    requires Assignment(v, a) && Ahead(v, a, page, pane, remaining)
    requires page < |v.pages| && TheTab(v, page, tab) && pane < |v.panes| && v.panes[pane].tab != tab
    ensures Ahead(v, a, page, pane + 1, remaining)
  {
    forall c | c in remaining
      ensures exists t :: t in a && t.page == page && IsTile(v, t) && v.pages[page][t.index] == c && a[t].pane >= pane + 1
    {
      var t :| t in a && t.page == page && IsTile(v, t) && v.pages[page][t.index] == c && a[t].pane >= pane;
      assert Serves(v, t, a[t]);
      if a[t].pane == pane {
        TabIsOne(v, page, tab, v.panes[pane].tab);
      }
    }
  }

  /** No missing tile is assigned to the pane just looked at. */
  lemma PastPane(v: View, a: map<Tile, Place>, page: nat, pane: nat, remaining: seq<string>)
    requires Ahead(v, a, page, pane, remaining) && page < |v.pages|
    requires forall t :: t in a && t.page == page && IsTile(v, t) && a[t].pane == pane ==>
      v.pages[page][t.index] !in remaining
    ensures Ahead(v, a, page, pane + 1, remaining)
  {
    forall c | c in remaining
      ensures exists t :: t in a && t.page == page && IsTile(v, t) && v.pages[page][t.index] == c && a[t].pane >= pane + 1
    {
      var t :| t in a && t.page == page && IsTile(v, t) && v.pages[page][t.index] == c && a[t].pane >= pane;
    }
  }

  /** At the start of a page. */
  lemma PageOnCourse(v: View, a: map<Tile, Place>, page: nat, used: set<string>)
    requires PlainlyArranged(v) && Assignment(v, a) && Covers(v, a, |v.pages|) && page < |v.pages|
    requires forall pid :: pid in used ==> exists t :: Fits(v, pid, t) && t.page < page
    ensures OnCourse(v, a, page, 0, v.pages[page], used)
  {
    var remaining := v.pages[page];
    forall i, j | 0 <= i < j < |remaining| ensures remaining[i] != remaining[j] {
      var s, t := Tile(page, i), Tile(page, j);
      assert s in a && t in a && Serves(v, s, a[s]) && Serves(v, t, a[t]);
      if remaining[i] == remaining[j] {
        assert Fits(v, a[s].pid, s) && Fits(v, a[s].pid, t);
      }
    }
    forall c | c in remaining
      ensures exists t :: t in a && t.page == page && IsTile(v, t) && v.pages[page][t.index] == c && a[t].pane >= 0
    {
      var i :| 0 <= i < |remaining| && remaining[i] == c;
      assert Tile(page, i) in a;
    }
  }

  lemma {:induction false} PagesAreServed(v: View, a: map<Tile, Place>, page: nat, used: set<string>)
    requires PlainlyArranged(v) && Assignment(v, a) && Covers(v, a, |v.pages|)
    requires PagesTabbed(v)
    requires forall pid :: pid in used ==> exists t :: Fits(v, pid, t) && t.page < page
    ensures PagesServed(v, page, used)
    decreases |v.pages| - page
  {
    if page < |v.pages| {
      assert HasTab(v, page);
      var tab := TabOf(v, page).value;
      PageOnCourse(v, a, page, used);
      TabOnCourse(v, a, page, tab, 0, v.pages[page], used);
      PagesAreServed(v, a, page + 1, TabTakes(v, page, tab, 0, v.pages[page], used).value.1);
    }
  }

  /** A plainly arranged view in which every page has its tab and some assignment serves every tile is
      confirmed. */
  lemma {:induction false} PlainViewIsConfirmed(v: View)
    requires PlainlyArranged(v) && PanesNamed(v) && |v.pages| > 0 && PagesTabbed(v) && Covered(v)
    ensures Confirms(v)
  {
    var a :| Assignment(v, a) && Covers(v, a, |v.pages|);
    PagesAreServed(v, a, 0, {});
  }

  /** A page of two tiles, in two panes. The client of the first pane would serve either tile, that of the second
      only the first tile. */
  const CROSSED := View(
    "w", [Tab("w", "t", "page")], [Pane("w", "t", "p0"), Pane("w", "t", "p1")], [["a", "b"]], _ => "page",
    map["1" := ["a", "b"], "2" := ["a"]], (_, pane) => Some(if pane == 0 then ["1"] else ["2"]))

  lemma CrossedTab()
    ensures TheTab(CROSSED, 0, "t")
  {
    assert CROSSED.tabs[0] in CROSSED.tabs && OfPage(CROSSED, 0, CROSSED.tabs[0]);
  }

  /** The greedy loop gives the first pane's client the first tile, and finds none for the second: a view that
      could be matched is not confirmed. */
  lemma CrossedIsNotConfirmed()
    ensures Covered(CROSSED) && PanesNamed(CROSSED) && PagesTabbed(CROSSED) && !Confirms(CROSSED)
  {
    CrossedIsListed();
    CrossedIsCovered();
    CrossedIsNotServed();
  }

  lemma CrossedIsListed()
    ensures PanesNamed(CROSSED) && PagesTabbed(CROSSED)
  {
    CrossedTab();
    forall page: nat | page < |CROSSED.pages| ensures HasTab(CROSSED, page) {
      assert page == 0;
    }
  }

  lemma CrossedIsNotServed()
    ensures !PagesServed(CROSSED, 0, {})
  {
    var v := CROSSED;
    CrossedTab();
    CrossedTakes();
    TabIs(v, 0, "t");
    assert PageTakes(v, 0, {}) == Some((["b"], {"1"}));
  }

  lemma CrossedIsCovered()
    ensures Covered(CROSSED)
  {
    var v, a := CROSSED, map[Tile(0, 0) := Place(1, "2"), Tile(0, 1) := Place(0, "1")];
    CrossedTab();
    assert Serves(v, Tile(0, 0), Place(1, "2"));
    assert Serves(v, Tile(0, 1), Place(0, "1"));
    assert Assignment(v, a) && Covers(v, a, 1);
  }

  lemma CrossedTakes()
    ensures TabTakes(CROSSED, 0, "t", 0, ["a", "b"], {}) == Some((["b"], {"1"}))
  {
    var v := CROSSED;
    assert ["a", "b"][1..] == ["b"] && ["b"][1..] == [] && ["1"][1..] == [] && ["2"][1..] == [];
    assert FirstMatch(["a", "b"], ["a", "b"]) == Some(0) && Cut(["a", "b"], 0) == ["b"];
    assert Takes(v, "1", ["a", "b"], {}) && {} + {"1"} == {"1"};
    assert PaneTakes(v, ["1"], ["a", "b"], {}) == (["b"], {"1"});
    assert FirstMatch(["b"], ["a"]) == None by {
      assert FirstMatch([], ["a"]) == None;
    }
    assert PaneTakes(v, [], ["b"], {"1"}) == (["b"], {"1"});
    assert PaneTakes(v, ["2"], ["b"], {"1"}) == (["b"], {"1"});
    assert TabTakes(v, 0, "t", 2, ["b"], {"1"}) == Some((["b"], {"1"}));
    assert TabTakes(v, 0, "t", 1, ["b"], {"1"}) == Some((["b"], {"1"}));
  }

  // ---------------------------------------------------------------------------------------------

  /** A confirmed view has at least as many live clients as tiles. */
  lemma {:induction false} ClientsSuffice(v: View, a: map<Tile, Place>)
    requires Assignment(v, a)
    ensures |a| <= |v.clients|
  {
    var pids := set t | t in a :: a[t].pid;
    PidsAreMany(a);
    assert pids <= v.clients.Keys;
    SubsetSize(pids, v.clients.Keys);
  }

  lemma {:induction false} PidsAreMany(a: map<Tile, Place>)
    requires Distinct(a)
    ensures |set t | t in a :: a[t].pid| == |a|
  {
    var pids := set t | t in a :: a[t].pid;
    if a == map[] {
      assert pids == {};
    } else {
      var t :| t in a;
      var b := a - {t};
      assert forall s :: s in b ==> s in a && b[s] == a[s];
      PidsAreMany(b);
      var rest := set s | s in b :: b[s].pid;
      assert a[t].pid !in rest;
      forall x | x in pids ensures x in rest + {a[t].pid} {
        var s :| s in a && a[s].pid == x;
        assert s != t ==> s in b;
      }
      assert pids == rest + {a[t].pid};
      assert b.Keys == a.Keys - {t};
    }
  }

  lemma {:induction false} SubsetSize<T>(a: set<T>, b: set<T>)
    requires a <= b
    ensures |a| <= |b|
  {
    if a != {} {
      var x :| x in a;
      SubsetSize(a - {x}, b - {x});
    }
  }
}
