/** Tool calls grouped by the file they mutate.  Calls on one file run one after another, the groups
    run concurrently, and the results come back in input order.  A call is a finite number of steps
    between suspension points; the scheduler picks which group advances at every step. */
module Grouping {
  import opened Types
  import opened Text

  // --- Keys ----------------------------------------------------------------------------------

  function Lower(c: char): char {
    if 'A' <= c <= 'Z' then c + 32 as char else c
  }

  function LowerAll(s: string): string {
    seq(|s|, i requires 0 <= i < |s| => Lower(s[i]))
  }

  predicate Mutates(name: string) {
    LowerAll(name) in {"edit", "write"}
  }

  predicate Kept(component: string) {
    component != "" && component != "."
  }

  function KeptOf(components: seq<string>): (kept: seq<string>)
    ensures forall c <- kept :: Kept(c) && c in components
  {
    if components == [] then []
    else (if Kept(components[0]) then [components[0]] else []) + KeptOf(components[1..])
  }

  /** The components of a path: no empty ones, no `.`. */
  function Components(path: string): seq<string> {
    KeptOf(Split(path, '/'))
  }

  predicate Rooted(path: string) {
    path != "" && path[0] == '/'
  }

  function NormalisePathKey(path: string): string {
    (if Rooted(path) then "/" else "") + JoinWith(Components(path), '/')
  }

  lemma {:induction false} KeptStays(components: seq<string>)
    requires forall c <- components :: Kept(c)
    ensures KeptOf(components) == components
    decreases |components|
  {
    if components != [] {
      KeptStays(components[1..]);
    }
  }

  /** The key of a path has the same components, and is rooted like it. */
  lemma KeyKeepsComponents(path: string)
    ensures Components(NormalisePathKey(path)) == Components(path) && Rooted(NormalisePathKey(path)) == Rooted(path)
  {
    var cs := Components(path);
    var joined := JoinWith(cs, '/');
    if cs == [] {
      assert Split("", '/') == [""];
      SplitOnceFinds("", '/', "");
      assert "" + "/" + "" == "/";
      assert Split("/", '/') == [""] + Split("", '/');
    } else {
      SplitJoined(cs, '/');
      KeptStays(cs);
      assert joined != "" && joined[0] == cs[0][0] && cs[0][0] in cs[0];
      SplitOnceFinds("", '/', joined);
      assert "" + ['/'] + joined == "/" + joined;
      assert Split("/" + joined, '/') == [""] + cs;
      assert ([""] + cs)[1..] == cs;
      assert "" + joined == joined;
    }
  }

  /** Two spellings share a key exactly when they name the same components from the same root. */
  lemma SameKeyIffSamePath(p: string, q: string)
    ensures NormalisePathKey(p) == NormalisePathKey(q) <==> Components(p) == Components(q) && Rooted(p) == Rooted(q)
  {
    KeyKeepsComponents(p);
    KeyKeepsComponents(q);
  }

  /** The path a mutating call addresses, if it has one; `path` reads the argument. */
  function FilePathKey(call: ToolCall, path: string -> Option<string>): Option<string> {
    if !Mutates(call.name) || path(call.arguments).None? then None
    else Some(NormalisePathKey(path(call.arguments).value))
  }

  /** `edit` or `write`, in any letter case. */
  predicate NamesAnEdit(name: string) {
    || (|name| == 4 && name[0] in "eE" && name[1] in "dD" && name[2] in "iI" && name[3] in "tT")
    || (|name| == 5 && name[0] in "wW" && name[1] in "rR" && name[2] in "iI" && name[3] in "tT" && name[4] in "eE")
  }

  lemma SameLetters(name: string)
    ensures Mutates(name) <==> NamesAnEdit(name)
  {
    var lower := LowerAll(name);
    if |name| == 4 {
      assert lower == [Lower(name[0]), Lower(name[1]), Lower(name[2]), Lower(name[3])];
    } else if |name| == 5 {
      assert lower == [Lower(name[0]), Lower(name[1]), Lower(name[2]), Lower(name[3]), Lower(name[4])];
    }
  }

  /** Exactly the edits and writes that name a path have a key: that path, normalised. */
  lemma EditsAreKeyed(call: ToolCall, path: string -> Option<string>)
    ensures FilePathKey(call, path)
            == if NamesAnEdit(call.name) && path(call.arguments).Some?
               then Some(NormalisePathKey(path(call.arguments).value)) else None
  {
    SameLetters(call.name);
  }

  lemma {:induction false} SplitAppend(a: string, sep: char, b: string)
    ensures Split(a + [sep] + b, sep) == Split(a, sep) + Split(b, sep)
    decreases |a|
  {
    match SplitOnce(a, sep)
    case None => SplitOnceFinds(a, sep, b);
    case Some((x, y)) =>
      assert a + [sep] + b == x + [sep] + (y + [sep] + b);
      SplitOnceFinds(x, sep, y + [sep] + b);
      SplitAppend(y, sep, b);
  }

  lemma {:induction false} KeptAppend(a: seq<string>, b: seq<string>)
    ensures KeptOf(a + b) == KeptOf(a) + KeptOf(b)
    decreases |a|
  {
    if a == [] {
      assert a + b == b;
    } else {
      assert (a + b)[1..] == a[1..] + b;
      KeptAppend(a[1..], b);
    }
  }

  lemma ComponentsAppend(a: string, b: string)
    ensures Components(a + "/" + b) == Components(a) + Components(b)
  {
    SplitAppend(a, '/', b);
    KeptAppend(Split(a, '/'), Split(b, '/'));
  }

  lemma NoComponents()
    ensures Components("") == [] && Components(".") == []
  {
    assert Split("", '/') == [""] && Split(".", '/') == ["."];
  }

  lemma FirstEmpty(b: string)
    ensures Components("/" + b) == Components(b)
  {
    NoComponents();
    ComponentsAppend("", b);
    assert "" + "/" + b == "/" + b;
  }

  lemma FirstDot(b: string)
    ensures Components("./" + b) == Components(b)
  {
    NoComponents();
    ComponentsAppend(".", b);
    assert "." + "/" + b == "./" + b;
  }

  lemma LastSlash(a: string)
    ensures Components(a + "/") == Components(a)
  {
    NoComponents();
    ComponentsAppend(a, "");
    assert a + "/" + "" == a + "/";
  }

  /** The path is written with a doubled slash, a `.` component, a slash at its end or a `./` at its start that
      could be left out. */
  predicate Respelled(path: string, plain: string, a: string, b: string) {
    || (path == a + "/" + ("/" + b) && plain == a + "/" + b)
    || (path == a + "/" + ("./" + b) && plain == a + "/" + b)
    || (path == a + "/" && plain == a && a != "")
    || (path == "./" + b && plain == b && !Rooted(b))
  }

  /** Such a spelling has the same key as the plain one. */
  lemma SpellingDoesNotMatter(path: string, plain: string, a: string, b: string)
    requires Respelled(path, plain, a, b)
    ensures NormalisePathKey(path) == NormalisePathKey(plain)
  {
    hide Components, JoinWith;
    FirstEmpty(b);
    FirstDot(b);
    LastSlash(a);
    ComponentsAppend(a, b);
    ComponentsAppend(a, "/" + b);
    ComponentsAppend(a, "./" + b);
  }

  lemma {:induction false} JoinSplit(s: string, sep: char)
    ensures JoinWith(Split(s, sep), sep) == s
    decreases |s|
  {
    match SplitOnce(s, sep)
    case None =>
    case Some((a, b)) =>
      JoinSplit(b, sep);
      assert ([a] + Split(b, sep))[1..] == Split(b, sep);
  }

  lemma RootLeavesAGap(path: string)
    requires Rooted(path)
    ensures "" in Split(path, '/')
  {
    SplitOnceFinds("", '/', path[1..]);
    assert path == "" + "/" + path[1..];
    assert Split(path, '/')[0] == "";
  }

  /** A path spelled plainly is its own key. */
  lemma PlainPathIsItsKey(path: string)
    requires path != "" && forall c <- Split(path, '/') :: c != "" && c != "."
    ensures NormalisePathKey(path) == path && NormalisePathKey("/" + path) == "/" + path
  {
    hide Split, JoinWith;
    KeptStays(Split(path, '/'));
    JoinSplit(path, '/');
    if Rooted(path) {
      RootLeavesAGap(path);
    }
    NoComponents();
    assert "/" + path == "" + "/" + path;
    ComponentsAppend("", path);
    assert [] + Components(path) == Components(path);
  }

  function KeyOf(path: string -> Option<string>): ToolCall -> Option<string> {
    (call: ToolCall) => FilePathKey(call, path)
  }

  // --- Groups --------------------------------------------------------------------------------

  datatype Entry<T> = Entry(index: nat, item: T)

  /** Where an input landed: its group and its position there. */
  datatype Place = Place(group: nat, at: nat)

  predicate InGroup<T(==)>(groups: seq<seq<Entry<T>>>, p: Place, i: nat, item: T) {
    p.group < |groups| && p.at < |groups[p.group]| && groups[p.group][p.at] == Entry(i, item)
  }

  predicate PlacedAt<T>(groups: seq<seq<Entry<T>>>, places: seq<Place>, g: nat, j: nat)
    requires g < |groups| && j < |groups[g]|
  {
    groups[g][j].index < |places| && places[groups[g][j].index] == Place(g, j)
  }

  /** One group: input order, one key; only a keyed group holds more than one call. */
  predicate Uniform<T>(key: T -> Option<string>, group: seq<Entry<T>>) {
    && group != []
    && (forall j, k | 0 <= j < k < |group| :: group[j].index < group[k].index)
    && (forall j | 0 <= j < |group| :: key(group[j].item) == GroupKey(key, group))
    && (|group| > 1 ==> GroupKey(key, group).Some?)
  }

  predicate KeysDiffer<T>(key: T -> Option<string>, a: seq<Entry<T>>, b: seq<Entry<T>>) {
    GroupKey(key, a).Some? ==> GroupKey(key, a) != GroupKey(key, b)
  }

  /** The groups partition the inputs, and no two share a key. */
  ghost predicate Grouped<T>(items: seq<T>, key: T -> Option<string>, groups: seq<seq<Entry<T>>>, places: seq<Place>) {
    && |places| == |items|
    && (forall i {:trigger InGroup(groups, places[i], i, items[i])} | 0 <= i < |items| ::
          InGroup(groups, places[i], i, items[i]))
    && (forall g, j {:trigger PlacedAt(groups, places, g, j)} | 0 <= g < |groups| && 0 <= j < |groups[g]| ::
          PlacedAt(groups, places, g, j))
    && (forall g {:trigger Uniform(key, groups[g])} | 0 <= g < |groups| :: Uniform(key, groups[g]))
    && (forall g, h {:trigger KeysDiffer(key, groups[g], groups[h])} |
          0 <= g < |groups| && 0 <= h < |groups| && g != h ::
          KeysDiffer(key, groups[g], groups[h]))
  }

  function GroupKey<T>(key: T -> Option<string>, group: seq<Entry<T>>): Option<string> {
    if group == [] then None else key(group[0].item)
  }

  lemma JoinGroup<T>(items: seq<T>, key: T -> Option<string>, groups: seq<seq<Entry<T>>>, places: seq<Place>,
                     item: T, g: nat)
    requires Grouped(items, key, groups, places)
    requires g < |groups| && key(item).Some? && key(item) == GroupKey(key, groups[g])
    ensures Grouped(items + [item], key, groups[g := groups[g] + [Entry(|items|, item)]],
                    places + [Place(g, |groups[g]|)])
  {
    var grown := groups[g] + [Entry(|items|, item)];
    var all, after, where := items + [item], groups[g := grown], places + [Place(g, |groups[g]|)];
    assert Uniform(key, groups[g]);
    assert grown[0] == groups[g][0];
    forall i | 0 <= i < |all| ensures InGroup(after, where[i], i, all[i]) {
      if i < |items| {
        assert InGroup(groups, places[i], i, items[i]);
      }
    }
    forall h, j | 0 <= h < |after| && 0 <= j < |after[h]| ensures PlacedAt(after, where, h, j) {
      if !(h == g && j == |groups[g]|) {
        assert PlacedAt(groups, places, h, j);
      }
    }
    forall h | 0 <= h < |after| ensures Uniform(key, after[h]) {
      assert Uniform(key, groups[h]);
      if h == g {
        forall j | 0 <= j < |groups[g]| ensures groups[g][j].index < |items| {
          assert PlacedAt(groups, places, g, j);
        }
      }
    }
    forall h, k | 0 <= h < |after| && 0 <= k < |after| && h != k ensures KeysDiffer(key, after[h], after[k]) {
      assert KeysDiffer(key, groups[h], groups[k]);
    }
  }

  lemma OpenGroup<T>(items: seq<T>, key: T -> Option<string>, groups: seq<seq<Entry<T>>>, places: seq<Place>, item: T)
    requires Grouped(items, key, groups, places)
    requires forall g | 0 <= g < |groups| && key(item).Some? :: GroupKey(key, groups[g]) != key(item)
    ensures Grouped(items + [item], key, groups + [[Entry(|items|, item)]], places + [Place(|groups|, 0)])
  {
    var all, after, where := items + [item], groups + [[Entry(|items|, item)]], places + [Place(|groups|, 0)];
    forall i | 0 <= i < |all| ensures InGroup(after, where[i], i, all[i]) {
      if i < |items| {
        assert InGroup(groups, places[i], i, items[i]);
      }
    }
    forall h, j | 0 <= h < |after| && 0 <= j < |after[h]| ensures PlacedAt(after, where, h, j) {
      if h < |groups| {
        assert PlacedAt(groups, places, h, j);
      }
    }
    forall h | 0 <= h < |after| ensures Uniform(key, after[h]) {
      if h < |groups| {
        assert Uniform(key, groups[h]);
      }
    }
    forall h, k | 0 <= h < |after| && 0 <= k < |after| && h != k ensures KeysDiffer(key, after[h], after[k]) {
      if h < |groups| && k < |groups| {
        assert KeysDiffer(key, groups[h], groups[k]);
      }
    }
  }

  method GroupByPath<T(==)>(items: seq<T>, key: T -> Option<string>)
    returns (groups: seq<seq<Entry<T>>>)
    ensures exists places :: Grouped(items, key, groups, places)
  {
    groups := [];
    ghost var places: seq<Place> := [];
    var pathToGroup: map<string, nat> := map[];
    for i := 0 to |items|
      invariant Grouped(items[..i], key, groups, places)
      invariant forall k :: k in pathToGroup ==>
                  pathToGroup[k] < |groups| && GroupKey(key, groups[pathToGroup[k]]) == Some(k)
      invariant forall g | 0 <= g < |groups| && GroupKey(key, groups[g]).Some? ::
                  GroupKey(key, groups[g]).value in pathToGroup
    {
      var item := items[i];
      assert items[..i + 1] == items[..i] + [item];
      match key(item)
      case Some(k) =>
        if k in pathToGroup {
          var g := pathToGroup[k];
          JoinGroup(items[..i], key, groups, places, item, g);
          places := places + [Place(g, |groups[g]|)];
          groups := groups[g := groups[g] + [Entry(i, item)]];
        } else {
          OpenGroup(items[..i], key, groups, places, item);
          pathToGroup := pathToGroup[k := |groups|];
          places := places + [Place(|groups|, 0)];
          groups := groups + [[Entry(i, item)]];
        }
      case None =>
        OpenGroup(items[..i], key, groups, places, item);
        places := places + [Place(|groups|, 0)];
        groups := groups + [[Entry(i, item)]];
    }
    assert items[..|items|] == items;
  }

  // --- Calls as interruptible steps ------------------------------------------------------------

  /** How a call runs: its local state, its steps, and its result.  A step sees one file cell; the
      cell is absent when the file does not exist, and always absent for a call without a key. */
  datatype Tool<!T, !L, !F, !R> = Tool(
    begin: T -> L,
    steps: T -> nat,
    work: (T, L, Option<F>) -> (L, Option<F>),
    result: (T, L) -> R)

  function Look<F>(files: map<string, F>, key: Option<string>): Option<F> {
    if key.Some? && key.value in files then Some(files[key.value]) else None
  }

  function Put<F>(files: map<string, F>, key: Option<string>, cell: Option<F>): map<string, F> {
    if key.None? then files
    else if cell.Some? then files[key.value := cell.value]
    else files - {key.value}
  }

  lemma PutLook<F>(files: map<string, F>, key: Option<string>, cell: Option<F>, other: Option<string>)
    requires key.None? ==> cell.None?
    ensures Look(Put(files, key, cell), key) == cell
    ensures other != key ==> Look(Put(files, key, cell), other) == Look(files, other)
  {
  }

  function WorkOnce<T, L, F, R>(tool: Tool<T, L, F, R>, keyed: bool, item: T, l: L, cell: Option<F>): (L, Option<F>) {
    var (l', cell') := tool.work(item, l, cell);
    (l', if keyed then cell' else None)
  }

  function Work<T, L, F, R>(tool: Tool<T, L, F, R>, keyed: bool, item: T, l: L, cell: Option<F>, n: nat): (L, Option<F>)
    decreases n
  {
    if n == 0 then (l, cell)
    else
      var (l', cell') := WorkOnce(tool, keyed, item, l, cell);
      Work(tool, keyed, item, l', cell', n - 1)
  }

  /** One call from start to end with nothing in between. */
  function Execute<T, L, F, R>(tool: Tool<T, L, F, R>, keyed: bool, item: T, cell: Option<F>): (R, Option<F>) {
    var (l, cell') := Work(tool, keyed, item, tool.begin(item), cell, tool.steps(item));
    (tool.result(item, l), cell')
  }

  /** A whole group, one call after another. */
  function Serve<T, L, F, R>(tool: Tool<T, L, F, R>, keyed: bool, calls: seq<Entry<T>>, cell: Option<F>)
    : (seq<(nat, R)>, Option<F>)
    decreases |calls|
  {
    if calls == [] then ([], cell)
    else
      var (r, cell') := Execute(tool, keyed, calls[0].item, cell);
      var (out, last) := Serve(tool, keyed, calls[1..], cell');
      ([(calls[0].index, r)] + out, last)
  }

  lemma {:induction false} ServeSnoc<T, L, F, R>(tool: Tool<T, L, F, R>, keyed: bool, calls: seq<Entry<T>>, c: Entry<T>,
                                                 cell: Option<F>)
    ensures var (out, mid) := Serve(tool, keyed, calls, cell);
            var (r, last) := Execute(tool, keyed, c.item, mid);
            Serve(tool, keyed, calls + [c], cell) == (out + [(c.index, r)], last)
    decreases |calls|
  {
    var all := calls + [c];
    if calls == [] {
      assert all == [c] && all[1..] == [];
      var (r, last) := Execute(tool, keyed, c.item, cell);
      var none: seq<(nat, R)> := [];
      assert Serve(tool, keyed, all, cell) == ([(c.index, r)] + none, last);
      assert [(c.index, r)] + none == none + [(c.index, r)];
    } else {
      assert all[1..] == calls[1..] + [c];
      var (r0, cell') := Execute(tool, keyed, calls[0].item, cell);
      ServeSnoc(tool, keyed, calls[1..], c, cell');
      var (out, mid) := Serve(tool, keyed, calls[1..], cell');
      var (r, last) := Execute(tool, keyed, c.item, mid);
      assert [(calls[0].index, r0)] + (out + [(c.index, r)]) == ([(calls[0].index, r0)] + out) + [(c.index, r)];
    }
  }

  // --- The interleaved run --------------------------------------------------------------------

  datatype Running<L> = Waiting | Active(local: L, left: nat)

  /** One group's future: which call it is at and what it returned so far. */
  datatype Lane<T, L, R> = Lane(calls: seq<Entry<T>>, at: nat, running: Running<L>, out: seq<(nat, R)>) {
    predicate Sane() {
      at <= |calls| && (running.Active? ==> at < |calls|)
    }

    predicate Finished() {
      at >= |calls|
    }
  }

  function StepLane<T, L, F, R>(tool: Tool<T, L, F, R>, keyed: bool, lane: Lane<T, L, R>, cell: Option<F>)
    : (Lane<T, L, R>, Option<F>)
    requires lane.Sane() && !lane.Finished()
  {
    var call := lane.calls[lane.at];
    match lane.running
    case Waiting => (lane.(running := Active(tool.begin(call.item), tool.steps(call.item))), cell)
    case Active(l, left) =>
      if left > 0 then
        var (l', cell') := WorkOnce(tool, keyed, call.item, l, cell);
        (lane.(running := Active(l', left - 1)), cell')
      else
        var out := lane.out + [(call.index, tool.result(call.item, l))];
        (lane.(at := lane.at + 1, running := Waiting, out := out), cell)
  }

  /** What a lane returns and leaves in its file if only it ran from here on. */
  function Finishing<T, L, F, R>(tool: Tool<T, L, F, R>, keyed: bool, lane: Lane<T, L, R>, cell: Option<F>)
    : (seq<(nat, R)>, Option<F>)
    requires lane.Sane()
  {
    match lane.running
    case Waiting =>
      var (out, last) := Serve(tool, keyed, lane.calls[lane.at..], cell);
      (lane.out + out, last)
    case Active(l, left) =>
      var call := lane.calls[lane.at];
      var (l', cell') := Work(tool, keyed, call.item, l, cell, left);
      var (out, last) := Serve(tool, keyed, lane.calls[lane.at + 1..], cell');
      (lane.out + [(call.index, tool.result(call.item, l'))] + out, last)
  }

  /** A lane's own steps never change where it is heading. */
  lemma StepKeepsFinishing<T, L, F, R>(tool: Tool<T, L, F, R>, keyed: bool, lane: Lane<T, L, R>, cell: Option<F>)
    requires lane.Sane() && !lane.Finished()
    ensures var (lane', cell') := StepLane(tool, keyed, lane, cell);
            lane'.Sane() && Finishing(tool, keyed, lane', cell') == Finishing(tool, keyed, lane, cell)
  {
    var rest := lane.calls[lane.at..];
    var call := lane.calls[lane.at];
    assert rest[1..] == lane.calls[lane.at + 1..];
    match lane.running
    case Waiting =>
      var (r, c) := Execute(tool, keyed, call.item, cell);
      var (out, last) := Serve(tool, keyed, rest[1..], c);
      assert lane.out + ([(call.index, r)] + out) == lane.out + [(call.index, r)] + out;
    case Active(_, _) =>
  }

  function LaneWork<T, L, F, R>(tool: Tool<T, L, F, R>, calls: seq<Entry<T>>): nat {
    if calls == [] then 0 else tool.steps(calls[0].item) + 2 + LaneWork(tool, calls[1..])
  }

  function LaneLeft<T, L, F, R>(tool: Tool<T, L, F, R>, lane: Lane<T, L, R>): nat
    requires lane.Sane()
  {
    if lane.running.Active? then lane.running.left + 1 + LaneWork(tool, lane.calls[lane.at + 1..])
    else LaneWork(tool, lane.calls[lane.at..])
  }

  function StepsLeft<T, L, F, R>(tool: Tool<T, L, F, R>, lanes: seq<Lane<T, L, R>>): nat
    requires forall g | 0 <= g < |lanes| :: lanes[g].Sane()
  {
    if lanes == [] then 0 else LaneLeft(tool, lanes[0]) + StepsLeft(tool, lanes[1..])
  }

  lemma {:induction false} StepsDecrease<T, L, F, R>(tool: Tool<T, L, F, R>, lanes: seq<Lane<T, L, R>>, g: nat,
                                                     lane: Lane<T, L, R>)
    requires forall h | 0 <= h < |lanes| :: lanes[h].Sane()
    requires g < |lanes| && lane.Sane() && LaneLeft(tool, lane) < LaneLeft(tool, lanes[g])
    ensures StepsLeft(tool, lanes[g := lane]) < StepsLeft(tool, lanes)
    decreases |lanes|
  {
    var after := lanes[g := lane];
    if g == 0 {
      assert after[1..] == lanes[1..];
    } else {
      assert after[1..] == lanes[1..][g - 1 := lane];
      StepsDecrease(tool, lanes[1..], g - 1, lane);
    }
  }

  lemma StepShortens<T, L, F, R>(tool: Tool<T, L, F, R>, keyed: bool, lane: Lane<T, L, R>, cell: Option<F>)
    requires lane.Sane() && !lane.Finished()
    ensures var (lane', cell') := StepLane(tool, keyed, lane, cell);
            lane'.Sane() && LaneLeft(tool, lane') < LaneLeft(tool, lane)
  {
    assert lane.calls[lane.at..][1..] == lane.calls[lane.at + 1..];
  }

  function Flatten<X>(parts: seq<seq<X>>): seq<X> {
    if parts == [] then [] else parts[0] + Flatten(parts[1..])
  }

  function InsertByIndex<R>(x: (nat, R), sorted: seq<(nat, R)>): seq<(nat, R)> {
    if sorted == [] || x.0 < sorted[0].0 then [x] + sorted
    else [sorted[0]] + InsertByIndex(x, sorted[1..])
  }

  /** A stable sort on the index. */
  function SortByIndex<R>(xs: seq<(nat, R)>): seq<(nat, R)> {
    if xs == [] then [] else InsertByIndex(xs[|xs| - 1], SortByIndex(xs[..|xs| - 1]))
  }

  function Tagged<R>(results: seq<R>): (tagged: seq<(nat, R)>)
    ensures |tagged| == |results|
  {
    seq(|results|, i requires 0 <= i < |results| => (i, results[i]))
  }

  // --- The sequential reference -----------------------------------------------------------------

  /** Every call run to completion in input order on the shared files. */
  function InOrder<T, L, F, R>(tool: Tool<T, L, F, R>, key: T -> Option<string>, files: map<string, F>, items: seq<T>)
    : (r: (seq<R>, map<string, F>))
    ensures |r.0| == |items|
    decreases |items|
  {
    if items == [] then ([], files)
    else
      var last := items[|items| - 1];
      var (results, before) := InOrder(tool, key, files, items[..|items| - 1]);
      var (r, cell) := Execute(tool, key(last).Some?, last, Look(before, key(last)));
      (results + [r], Put(before, key(last), cell))
  }

  /** The calls of a group with an index below `n`. */
  function Until<T>(group: seq<Entry<T>>, n: nat): (early: seq<Entry<T>>)
    decreases |group|
  {
    if group == [] || group[|group| - 1].index < n then group else Until(group[..|group| - 1], n)
  }

  lemma {:induction false} UntilStays<T>(group: seq<Entry<T>>, n: nat)
    requires forall j | 0 <= j < |group| :: group[j].index != n
    ensures Until(group, n + 1) == Until(group, n)
    decreases |group|
  {
    if group != [] && group[|group| - 1].index >= n {
      UntilStays(group[..|group| - 1], n);
    }
  }

  lemma UntilLast<T>(group: seq<Entry<T>>)
    requires group != [] && forall j | 0 <= j < |group| - 1 :: group[j].index < group[|group| - 1].index
    ensures var last := group[|group| - 1];
            Until(group, last.index + 1) == group && Until(group, last.index) == group[..|group| - 1]
  {
    var init := group[..|group| - 1];
    assert init != [] ==> init[|init| - 1] == group[|group| - 2];
  }

  lemma {:induction false} UntilGrows<T>(group: seq<Entry<T>>, at: nat)
    requires at < |group|
    requires forall j, k | 0 <= j < k < |group| :: group[j].index < group[k].index
    ensures var n := group[at].index; Until(group, n + 1) == Until(group, n) + [group[at]]
    decreases |group|
  {
    var last := |group| - 1;
    var init := group[..last];
    if at == last {
      UntilLast(group);
    } else {
      assert group[at].index < group[last].index;
      UntilGrows(init, at);
    }
  }

  lemma {:induction false} UntilAll<T>(group: seq<Entry<T>>, n: nat)
    requires forall j | 0 <= j < |group| :: group[j].index < n
    ensures Until(group, n) == group
  {
  }

  lemma {:induction false} UntilNone<T>(group: seq<Entry<T>>)
    ensures Until(group, 0) == []
    decreases |group|
  {
    if group != [] {
      UntilNone(group[..|group| - 1]);
    }
  }

  function ServedUntil<T, L, F, R>(tool: Tool<T, L, F, R>, key: T -> Option<string>, files: map<string, F>,
                                   groups: seq<seq<Entry<T>>>, n: nat): (outs: seq<seq<(nat, R)>>)
    ensures |outs| == |groups|
  {
    seq(|groups|, g requires 0 <= g < |groups| =>
      Serve(tool, GroupKey(key, groups[g]).Some?, Until(groups[g], n), Look(files, GroupKey(key, groups[g]))).0)
  }

  lemma {:induction false} FlattenUpdate<X>(parts: seq<seq<X>>, g: nat, x: X)
    requires g < |parts|
    ensures multiset(Flatten(parts[g := parts[g] + [x]])) == multiset(Flatten(parts)) + multiset{x}
    decreases |parts|
  {
    var after := parts[g := parts[g] + [x]];
    if g == 0 {
      assert after[1..] == parts[1..];
    } else {
      assert after[1..] == parts[1..][g - 1 := parts[1..][g - 1] + [x]];
      FlattenUpdate(parts[1..], g - 1, x);
    }
  }

  lemma {:induction false} FlattenEmpty<X>(parts: seq<seq<X>>)
    requires forall g | 0 <= g < |parts| :: parts[g] == []
    ensures Flatten(parts) == []
    decreases |parts|
  {
    if parts != [] {
      FlattenEmpty(parts[1..]);
    }
  }

  /** Serving the groups up to input `n` returns the sequential results, */
  ghost predicate OutsMatch<T, L, F, R>(tool: Tool<T, L, F, R>, key: T -> Option<string>, files: map<string, F>,
                                        items: seq<T>, groups: seq<seq<Entry<T>>>, n: nat)
    requires n <= |items|
  {
    multiset(Flatten(ServedUntil(tool, key, files, groups, n)))
    == multiset(Tagged(InOrder(tool, key, files, items[..n]).0))
  }

  /** and leaves a group's file as the sequential run leaves it, */
  ghost predicate FileMatches<T, L, F, R>(tool: Tool<T, L, F, R>, key: T -> Option<string>, files: map<string, F>,
                                    items: seq<T>, group: seq<Entry<T>>, n: nat)
    requires n <= |items|
  {
    var k := GroupKey(key, group);
    k.Some? ==> Serve(tool, true, Until(group, n), Look(files, k)).1
                == Look(InOrder(tool, key, files, items[..n]).1, k)
  }

  /** while a file no group addresses is untouched. */
  ghost predicate Untouched<T, F>(key: T -> Option<string>, groups: seq<seq<Entry<T>>>, files: map<string, F>,
                                  after: map<string, F>) {
    forall k: string {:trigger Look(after, Some(k))} ::
      (forall g | 0 <= g < |groups| :: GroupKey(key, groups[g]) != Some(k)) ==>
        Look(after, Some(k)) == Look(files, Some(k))
  }

  ghost predicate Matches<T, L, F, R>(tool: Tool<T, L, F, R>, key: T -> Option<string>, files: map<string, F>,
                                      items: seq<T>, groups: seq<seq<Entry<T>>>, n: nat)
    requires n <= |items|
  {
    && OutsMatch(tool, key, files, items, groups, n)
    && (forall g {:trigger FileMatches(tool, key, files, items, groups[g], n)} | 0 <= g < |groups| ::
          FileMatches(tool, key, files, items, groups[g], n))
    && Untouched(key, groups, files, InOrder(tool, key, files, items[..n]).1)
  }

  lemma {:induction false} WorkUnkeyed<T, L, F, R>(tool: Tool<T, L, F, R>, item: T, l: L, n: nat)
    ensures Work(tool, false, item, l, None, n).1 == None
    decreases n
  {
    if n > 0 {
      WorkUnkeyed(tool, item, WorkOnce(tool, false, item, l, None).0, n - 1);
    }
  }

  lemma {:induction false} ServeUnkeyed<T, L, F, R>(tool: Tool<T, L, F, R>, calls: seq<Entry<T>>)
    ensures Serve(tool, false, calls, None).1 == None
    decreases |calls|
  {
    if calls != [] {
      WorkUnkeyed(tool, calls[0].item, tool.begin(calls[0].item), tool.steps(calls[0].item));
      ServeUnkeyed(tool, calls[1..]);
    }
  }

  lemma MatchesStart<T, L, F, R>(tool: Tool<T, L, F, R>, key: T -> Option<string>, files: map<string, F>,
                                 items: seq<T>, groups: seq<seq<Entry<T>>>)
    ensures Matches(tool, key, files, items, groups, 0)
  {
    forall g | 0 <= g < |groups|
      ensures Until(groups[g], 0) == [] && FileMatches(tool, key, files, items, groups[g], 0)
    {
      UntilNone(groups[g]);
    }
    FlattenEmpty(ServedUntil(tool, key, files, groups, 0));
  }

  /** The one group that gains a call at input `n`, and the call it gains. */
  lemma GroupsAt<T>(items: seq<T>, key: T -> Option<string>, groups: seq<seq<Entry<T>>>, places: seq<Place>, n: nat)
    requires Grouped(items, key, groups, places) && n < |items|
    ensures places[n].group < |groups| && key(items[n]) == GroupKey(key, groups[places[n].group])
    ensures forall g | 0 <= g < |groups| :: Until(groups[g], n + 1) ==
              if g == places[n].group then Until(groups[g], n) + [Entry(n, items[n])] else Until(groups[g], n)
  {
    var g0, at := places[n].group, places[n].at;
    assert InGroup(groups, places[n], n, items[n]);
    assert Uniform(key, groups[g0]);
    forall g | 0 <= g < |groups|
      ensures Until(groups[g], n + 1)
              == if g == g0 then Until(groups[g], n) + [Entry(n, items[n])] else Until(groups[g], n)
    {
      if g == g0 {
        UntilGrows(groups[g], at);
      } else {
        forall j | 0 <= j < |groups[g]| ensures groups[g][j].index != n {
          assert PlacedAt(groups, places, g, j);
        }
        UntilStays(groups[g], n);
      }
    }
  }

  /** The sequential run and the served groups make the same step at input `n`. */
  lemma SerialStep<T, L, F, R>(tool: Tool<T, L, F, R>, key: T -> Option<string>, files: map<string, F>,
                               items: seq<T>, groups: seq<seq<Entry<T>>>, places: seq<Place>, n: nat)
    returns (r: R, cell: Option<F>)
    requires Grouped(items, key, groups, places) && n < |items|
    requires Matches(tool, key, files, items, groups, n)
    ensures key(items[n]).None? ==> cell.None?
    ensures var (results, before) := InOrder(tool, key, files, items[..n]);
            InOrder(tool, key, files, items[..n + 1]) == (results + [r], Put(before, key(items[n]), cell))
    ensures places[n].group < |groups|
    ensures var g0, k0 := places[n].group, key(items[n]);
            && GroupKey(key, groups[g0]) == k0
            && Serve(tool, k0.Some?, Until(groups[g0], n + 1), Look(files, k0))
               == (Serve(tool, k0.Some?, Until(groups[g0], n), Look(files, k0)).0 + [(n, r)], cell)
  {
    GroupsAt(items, key, groups, places, n);
    var g0, item, k0 := places[n].group, items[n], key(items[n]);
    assert items[..n + 1][..n] == items[..n];
    var before := InOrder(tool, key, files, items[..n]).1;
    r, cell := Execute(tool, k0.Some?, item, Look(before, k0)).0, Execute(tool, k0.Some?, item, Look(before, k0)).1;
    var early := Until(groups[g0], n);
    assert FileMatches(tool, key, files, items, groups[g0], n);
    ServeSnoc(tool, k0.Some?, early, Entry(n, item), Look(files, k0));
    if k0.None? {
      ServeUnkeyed(tool, early);
      WorkUnkeyed(tool, item, tool.begin(item), tool.steps(item));
    }
  }

  lemma TaggedSnoc<R>(results: seq<R>, r: R)
    ensures multiset(Tagged(results + [r])) == multiset(Tagged(results)) + multiset{(|results|, r)}
  {
    assert Tagged(results + [r]) == Tagged(results) + [(|results|, r)];
  }

  lemma OutsStep<T, L, F, R>(tool: Tool<T, L, F, R>, key: T -> Option<string>, files: map<string, F>,
                             items: seq<T>, groups: seq<seq<Entry<T>>>, places: seq<Place>, n: nat)
    requires Grouped(items, key, groups, places) && n < |items|
    requires Matches(tool, key, files, items, groups, n)
    ensures OutsMatch(tool, key, files, items, groups, n + 1)
  {
    var r, cell := SerialStep(tool, key, files, items, groups, places, n);
    GroupsAt(items, key, groups, places, n);
    var g0 := places[n].group;
    var results := InOrder(tool, key, files, items[..n]).0;
    var outs, grown := ServedUntil(tool, key, files, groups, n), ServedUntil(tool, key, files, groups, n + 1);
    assert grown == outs[g0 := outs[g0] + [(n, r)]] by {
      forall g | 0 <= g < |groups| ensures grown[g] == (if g == g0 then outs[g0] + [(n, r)] else outs[g]) {
      }
    }
    FlattenUpdate(outs, g0, (n, r));
    TaggedSnoc(results, r);
  }

  lemma FileStep<T, L, F, R>(tool: Tool<T, L, F, R>, key: T -> Option<string>, files: map<string, F>,
                             items: seq<T>, groups: seq<seq<Entry<T>>>, places: seq<Place>, n: nat, g: nat)
    requires Grouped(items, key, groups, places) && n < |items| && g < |groups|
    requires Matches(tool, key, files, items, groups, n)
    ensures FileMatches(tool, key, files, items, groups[g], n + 1)
  {
    var r, cell := SerialStep(tool, key, files, items, groups, places, n);
    GroupsAt(items, key, groups, places, n);
    assert FileMatches(tool, key, files, items, groups[g], n);
    var g0, k0 := places[n].group, key(items[n]);
    if g != g0 {
      assert KeysDiffer(key, groups[g], groups[g0]);
    }
    PutLook(InOrder(tool, key, files, items[..n]).1, k0, cell, GroupKey(key, groups[g]));
  }

  lemma MatchesStep<T, L, F, R>(tool: Tool<T, L, F, R>, key: T -> Option<string>, files: map<string, F>,
                                items: seq<T>, groups: seq<seq<Entry<T>>>, places: seq<Place>, n: nat)
    requires Grouped(items, key, groups, places) && n < |items|
    requires Matches(tool, key, files, items, groups, n)
    ensures Matches(tool, key, files, items, groups, n + 1)
  {
    OutsStep(tool, key, files, items, groups, places, n);
    forall g | 0 <= g < |groups| ensures FileMatches(tool, key, files, items, groups[g], n + 1) {
      FileStep(tool, key, files, items, groups, places, n, g);
    }
    var r, cell := SerialStep(tool, key, files, items, groups, places, n);
    var before := InOrder(tool, key, files, items[..n]).1;
    forall k: string | forall g | 0 <= g < |groups| :: GroupKey(key, groups[g]) != Some(k)
      ensures Look(InOrder(tool, key, files, items[..n + 1]).1, Some(k)) == Look(files, Some(k))
    {
      assert GroupKey(key, groups[places[n].group]) != Some(k);
      PutLook(before, key(items[n]), cell, Some(k));
    }
  }

  lemma {:induction false} MatchesAll<T, L, F, R>(tool: Tool<T, L, F, R>, key: T -> Option<string>, files: map<string,
                                                  F>,
                                                  items: seq<T>, groups: seq<seq<Entry<T>>>, places: seq<Place>, n: nat)
    requires Grouped(items, key, groups, places) && n <= |items|
    ensures Matches(tool, key, files, items, groups, n)
  {
    hide Matches, Grouped;
    if n == 0 {
      MatchesStart(tool, key, files, items, groups);
    } else {
      MatchesAll(tool, key, files, items, groups, places, n - 1);
      MatchesStep(tool, key, files, items, groups, places, n - 1);
    }
  }

  // --- Putting the results back in order ----------------------------------------------------------

  predicate Ordered<R>(xs: seq<(nat, R)>) {
    forall i, j | 0 <= i < j < |xs| :: xs[i].0 <= xs[j].0
  }

  predicate AtLeast<R>(xs: seq<(nat, R)>, low: nat) {
    forall i | 0 <= i < |xs| :: low <= xs[i].0
  }

  lemma {:induction false} InsertAtLeast<R>(x: (nat, R), sorted: seq<(nat, R)>, low: nat)
    requires AtLeast(sorted, low) && low <= x.0
    ensures AtLeast(InsertByIndex(x, sorted), low)
    decreases |sorted|
  {
    if sorted != [] && x.0 >= sorted[0].0 {
      InsertAtLeast(x, sorted[1..], low);
    }
  }

  lemma {:induction false} InsertPermutes<R>(x: (nat, R), sorted: seq<(nat, R)>)
    ensures multiset(InsertByIndex(x, sorted)) == multiset(sorted) + multiset{x}
    decreases |sorted|
  {
    if sorted != [] && x.0 >= sorted[0].0 {
      assert sorted == [sorted[0]] + sorted[1..];
      InsertPermutes(x, sorted[1..]);
    }
  }

  lemma {:induction false} InsertOrdered<R>(x: (nat, R), sorted: seq<(nat, R)>)
    requires Ordered(sorted)
    ensures Ordered(InsertByIndex(x, sorted))
    decreases |sorted|
  {
    if sorted != [] && x.0 >= sorted[0].0 {
      InsertOrdered(x, sorted[1..]);
      InsertAtLeast(x, sorted[1..], sorted[0].0);
    }
  }

  lemma {:induction false} SortOrdered<R>(xs: seq<(nat, R)>)
    ensures Ordered(SortByIndex(xs)) && multiset(SortByIndex(xs)) == multiset(xs)
    decreases |xs|
  {
    if xs != [] {
      var init := xs[..|xs| - 1];
      assert xs == init + [xs[|xs| - 1]];
      SortOrdered(init);
      InsertOrdered(xs[|xs| - 1], SortByIndex(init));
      InsertPermutes(xs[|xs| - 1], SortByIndex(init));
    }
  }

  lemma LastIsTagged<R>(xs: seq<(nat, R)>, results: seq<R>)
    requires Ordered(xs) && multiset(xs) == multiset(Tagged(results)) && results != [] && |xs| == |results|
    ensures xs[|xs| - 1] == Tagged(results)[|results| - 1]
  {
    var tagged, n := Tagged(results), |results| - 1;
    assert tagged[n] in multiset(xs);
    assert xs[n] in multiset(tagged);
    var at :| 0 <= at < |xs| && xs[at] == tagged[n];
    var from :| 0 <= from < |tagged| && tagged[from] == xs[n];
    assert xs[at].0 <= xs[n].0;
  }

  lemma DropLast<X>(xs: seq<X>, ys: seq<X>)
    requires multiset(xs) == multiset(ys) && xs != [] && ys != [] && xs[|xs| - 1] == ys[|ys| - 1]
    ensures multiset(xs[..|xs| - 1]) == multiset(ys[..|ys| - 1])
  {
    assert xs == xs[..|xs| - 1] + [xs[|xs| - 1]];
    assert ys == ys[..|ys| - 1] + [ys[|ys| - 1]];
    assert multiset(xs[..|xs| - 1]) == multiset(xs) - multiset{xs[|xs| - 1]};
    assert multiset(ys[..|ys| - 1]) == multiset(ys) - multiset{ys[|ys| - 1]};
  }

  /** An ordered permutation of tagged results is the tagged results. */
  lemma {:induction false} OrderedIsTagged<R>(xs: seq<(nat, R)>, results: seq<R>)
    requires Ordered(xs) && multiset(xs) == multiset(Tagged(results))
    ensures xs == Tagged(results)
    decreases |results|
  {
    var tagged := Tagged(results);
    assert |xs| == |multiset(xs)| == |multiset(tagged)| == |tagged|;
    if results != [] {
      var n := |results| - 1;
      LastIsTagged(xs, results);
      DropLast(xs, tagged);
      assert tagged[..n] == Tagged(results[..n]);
      OrderedIsTagged(xs[..n], results[..n]);
      assert xs == xs[..n] + [xs[n]];
      assert tagged == tagged[..n] + [tagged[n]];
    }
  }

  /** The lane still heads for the result of serving its whole group on the original file. */
  ghost predicate OnCourse<T, L, F, R>(tool: Tool<T, L, F, R>, key: T -> Option<string>, files: map<string, F>,
                                       now: map<string, F>, group: seq<Entry<T>>, lane: Lane<T, L, R>) {
    && lane.Sane()
    && lane.calls == group
    && var k := GroupKey(key, group);
       Finishing(tool, k.Some?, lane, Look(now, k)) == Serve(tool, k.Some?, group, Look(files, k))
  }

  ghost predicate AllOnCourse<T, L, F, R>(tool: Tool<T, L, F, R>, key: T -> Option<string>, files: map<string, F>,
                                    now: map<string, F>, groups: seq<seq<Entry<T>>>, lanes: seq<Lane<T, L, R>>) {
    && |lanes| == |groups|
    && (forall g {:trigger OnCourse(tool, key, files, now, groups[g], lanes[g])} | 0 <= g < |groups| ::
          OnCourse(tool, key, files, now, groups[g], lanes[g]))
    && Untouched(key, groups, files, now)
  }

  lemma StartsOnCourse<T, L, F, R>(tool: Tool<T, L, F, R>, key: T -> Option<string>, files: map<string, F>,
                                   group: seq<Entry<T>>)
    ensures OnCourse(tool, key, files, files, group, Lane(group, 0, Waiting, []))
  {
    var k := GroupKey(key, group);
    assert group[0..] == group;
    var none: seq<(nat, R)> := [];
    var out := Serve(tool, k.Some?, group, Look(files, k)).0;
    assert none + out == out;
  }

  /** A step of one lane keeps every lane on course: no other lane shares its file. */
  lemma StepStaysOnCourse<T, L, F, R>(tool: Tool<T, L, F, R>, key: T -> Option<string>, files: map<string, F>,
                                      now: map<string, F>, items: seq<T>, groups: seq<seq<Entry<T>>>,
                                      places: seq<Place>, lanes: seq<Lane<T, L, R>>, g: nat)
    requires Grouped(items, key, groups, places) && AllOnCourse(tool, key, files, now, groups, lanes)
    requires g < |lanes| && lanes[g].Sane() && !lanes[g].Finished()
    ensures var k := GroupKey(key, groups[g]);
            var (lane, cell) := StepLane(tool, k.Some?, lanes[g], Look(now, k));
            AllOnCourse(tool, key, files, Put(now, k, cell), groups, lanes[g := lane])
  {
    var k := GroupKey(key, groups[g]);
    var (lane, cell) := StepLane(tool, k.Some?, lanes[g], Look(now, k));
    var moved := Put(now, k, cell);
    StepKeepsFinishing(tool, k.Some?, lanes[g], Look(now, k));
    forall h | 0 <= h < |groups| ensures OnCourse(tool, key, files, moved, groups[h], lanes[g := lane][h]) {
      assert OnCourse(tool, key, files, now, groups[h], lanes[h]);
      if h != g {
        assert KeysDiffer(key, groups[g], groups[h]);
      }
      PutLook(now, k, cell, GroupKey(key, groups[h]));
    }
    forall other: string | forall h | 0 <= h < |groups| :: GroupKey(key, groups[h]) != Some(other)
      ensures Look(moved, Some(other)) == Look(files, Some(other))
    {
      PutLook(now, k, cell, Some(other));
    }
  }

  lemma AllServed<T>(items: seq<T>, key: T -> Option<string>, groups: seq<seq<Entry<T>>>, places: seq<Place>, g: nat)
    requires Grouped(items, key, groups, places) && g < |groups|
    ensures Until(groups[g], |items|) == groups[g]
  {
    forall j | 0 <= j < |groups[g]| ensures groups[g][j].index < |items| {
      assert PlacedAt(groups, places, g, j);
    }
    UntilAll(groups[g], |items|);
  }

  lemma FinishedLane<T, L, F, R>(tool: Tool<T, L, F, R>, key: T -> Option<string>, files: map<string, F>,
                                 now: map<string, F>, group: seq<Entry<T>>, lane: Lane<T, L, R>)
    requires OnCourse(tool, key, files, now, group, lane) && lane.Finished()
    ensures var k := GroupKey(key, group);
            Serve(tool, k.Some?, group, Look(files, k)) == (lane.out, Look(now, k))
  {
    assert lane.calls[lane.at..] == [];
    var none: seq<(nat, R)> := [];
    assert lane.out + none == lane.out;
  }

  function Outs<T, L, R>(lanes: seq<Lane<T, L, R>>): (outs: seq<seq<(nat, R)>>)
    ensures |outs| == |lanes|
  {
    seq(|lanes|, g requires 0 <= g < |lanes| => lanes[g].out)
  }

  /** Once every lane is done, its outputs and the files are those of the sequential run. */
  lemma FinishedRun<T, L, F, R>(tool: Tool<T, L, F, R>, key: T -> Option<string>, files: map<string, F>,
                                now: map<string, F>, items: seq<T>, groups: seq<seq<Entry<T>>>,
                                places: seq<Place>, lanes: seq<Lane<T, L, R>>)
    requires Grouped(items, key, groups, places) && AllOnCourse(tool, key, files, now, groups, lanes)
    requires forall g | 0 <= g < |lanes| :: lanes[g].Finished()
    ensures SortByIndex(Flatten(Outs(lanes))) == Tagged(InOrder(tool, key, files, items).0)
    ensures forall k: string :: Look(now, Some(k)) == Look(InOrder(tool, key, files, items).1, Some(k))
  {
    hide Grouped, OnCourse, Serve, InOrder, SortByIndex, Flatten, Tagged, Until, Uniform;
    var n := |items|;
    MatchesAll(tool, key, files, items, groups, places, n);
    assert items[..n] == items;
    forall g | 0 <= g < |groups|
      ensures Outs(lanes)[g] == ServedUntil(tool, key, files, groups, n)[g]
      ensures FileMatches(tool, key, files, items, groups[g], n)
      ensures var k := GroupKey(key, groups[g]);
              Serve(tool, k.Some?, Until(groups[g], n), Look(files, k)).1 == Look(now, k)
    {
      assert OnCourse(tool, key, files, now, groups[g], lanes[g]);
      AllServed(items, key, groups, places, g);
      FinishedLane(tool, key, files, now, groups[g], lanes[g]);
    }
    assert Outs(lanes) == ServedUntil(tool, key, files, groups, n);
    SortOrdered(Flatten(Outs(lanes)));
    OrderedIsTagged(SortByIndex(Flatten(Outs(lanes))), InOrder(tool, key, files, items).0);
    forall k: string ensures Look(now, Some(k)) == Look(InOrder(tool, key, files, items).1, Some(k)) {
      if g :| 0 <= g < |groups| && GroupKey(key, groups[g]) == Some(k) {
        assert FileMatches(tool, key, files, items, groups[g], n);
      }
    }
  }

  /** Runs the groups under an arbitrary scheduler.  Whatever it picks, the results and the files
      are those of the calls run one by one in input order. */
  method ExecuteGrouped<T(==), L, F(==), R(==)>(items: seq<T>, key: T -> Option<string>, tool: Tool<T, L, F, R>,
                                      files: map<string, F>)
    returns (results: seq<R>, after: map<string, F>)
    ensures results == InOrder(tool, key, files, items).0
    ensures forall k: string :: Look(after, Some(k)) == Look(InOrder(tool, key, files, items).1, Some(k))
  {
    var groups := GroupByPath(items, key);
    ghost var places :| Grouped(items, key, groups, places);
    var lanes: seq<Lane<T, L, R>> := seq(|groups|, g requires 0 <= g < |groups| => Lane(groups[g], 0, Waiting, []));
    after := files;
    forall g | 0 <= g < |groups| ensures OnCourse(tool, key, files, after, groups[g], lanes[g]) {
      StartsOnCourse(tool, key, files, groups[g]);
    }
    while exists g: nat :: g < |lanes| && !lanes[g].Finished()
      invariant AllOnCourse(tool, key, files, after, groups, lanes)
      invariant forall g | 0 <= g < |lanes| :: lanes[g].Sane()
      decreases StepsLeft(tool, lanes)
    {
      var g: nat :| g < |lanes| && !lanes[g].Finished();
      var k := GroupKey(key, groups[g]);
      var (lane, cell) := StepLane(tool, k.Some?, lanes[g], Look(after, k));
      StepStaysOnCourse(tool, key, files, after, items, groups, places, lanes, g);
      StepShortens(tool, k.Some?, lanes[g], Look(after, k));
      StepsDecrease(tool, lanes, g, lane);
      lanes, after := lanes[g := lane], Put(after, k, cell);
    }
    FinishedRun(tool, key, files, after, items, groups, places, lanes);
    var indexed := SortByIndex(Flatten(Outs(lanes)));
    results := seq(|indexed|, i requires 0 <= i < |indexed| => indexed[i].1);
  }

  /** Two calls that address one file never run at the same time. */
  lemma NoOverlap<T, L, R>(items: seq<T>, key: T -> Option<string>, groups: seq<seq<Entry<T>>>, places: seq<Place>,
                           lanes: seq<Lane<T, L, R>>, g: nat, h: nat)
    requires Grouped(items, key, groups, places) && |lanes| == |groups| && g < |lanes| && h < |lanes|
    requires lanes[g].Sane() && lanes[g].calls == groups[g] && lanes[g].running.Active?
    requires lanes[h].Sane() && lanes[h].calls == groups[h] && lanes[h].running.Active?
    ensures var a, b := groups[g][lanes[g].at], groups[h][lanes[h].at];
            a.index != b.index ==> key(a.item).None? || key(a.item) != key(b.item)
  {
    assert Uniform(key, groups[g]) && Uniform(key, groups[h]);
    if g != h {
      assert KeysDiffer(key, groups[g], groups[h]);
    }
  }

  predicate SamePath(p: string, q: string) {
    Components(p) == Components(q) && Rooted(p) == Rooted(q)
  }

  /** Two edits or writes whose paths have the same components and root never run at the same time. */
  lemma EditsNeverOverlap<L, R>(items: seq<ToolCall>, path: string -> Option<string>, groups: seq<seq<Entry<ToolCall>>>,
                                places: seq<Place>, lanes: seq<Lane<ToolCall, L, R>>, g: nat, h: nat)
    requires Grouped(items, KeyOf(path), groups, places) && |lanes| == |groups| && g < |lanes| && h < |lanes|
    requires lanes[g].Sane() && lanes[g].calls == groups[g] && lanes[g].running.Active?
    requires lanes[h].Sane() && lanes[h].calls == groups[h] && lanes[h].running.Active?
    ensures var a, b := groups[g][lanes[g].at], groups[h][lanes[h].at];
            var p, q := path(a.item.arguments), path(b.item.arguments);
            a.index != b.index && NamesAnEdit(a.item.name) && NamesAnEdit(b.item.name) && p.Some? && q.Some? ==>
              !SamePath(p.value, q.value)
  {
    var a, b := groups[g][lanes[g].at], groups[h][lanes[h].at];
    NoOverlap(items, KeyOf(path), groups, places, lanes, g, h);
    EditsAreKeyed(a.item, path);
    EditsAreKeyed(b.item, path);
    if path(a.item.arguments).Some? && path(b.item.arguments).Some? {
      SameKeyIffSamePath(path(a.item.arguments).value, path(b.item.arguments).value);
    }
  }
}
