/** Command-line overrides of the configuration: `KEY=VALUE` edits of nested tables, made in place.
    Tables are heap objects; two ghost maps name each table of a document by its path and keep what
    it holds. */
module Overrides {
  import opened Types
  import opened Text

  type Path = seq<string>

  /** What is found at a path: text for anything but a table. */
  datatype Reading = Plain(text: string) | Section

  datatype Value = Scalar(text: string) | Sub(table: Table)

  class Table {
    var entries: map<string, Value>

    constructor ()
      ensures entries == map[]
    {
      entries := map[];
    }
  }

  /** The tables of a document by their paths, and what each of them holds. */
  datatype Shape = Shape(tables: map<Path, Table>, entries: map<Path, map<string, Value>>)

  predicate IsPrefix(p: Path, q: Path) {
    p <= q
  }

  /** A table held by a table is the one its path names. */
  predicate Points(s: Shape, p: Path, k: string)
    requires p in s.entries
  {
    k in s.entries[p] && s.entries[p][k].Sub? ==>
      p + [k] in s.tables && s.tables[p + [k]] == s.entries[p][k].table
  }

  /** Every table but the root is held by the table its path says. */
  predicate Found(s: Shape, p: Path)
    requires p in s.tables
  {
    p != [] ==>
      && var r, k := p[..|p| - 1], p[|p| - 1];
      && r in s.entries && k in s.entries[r] && s.entries[r][k] == Sub(s.tables[p])
  }

  ghost predicate Apart(s: Shape) {
    forall p, q {:trigger s.tables[p], s.tables[q]} |
      p in s.tables && q in s.tables && s.tables[p] == s.tables[q] :: p == q
  }

  /** The tables form a tree, each of them at one path. */
  ghost predicate Tree(s: Shape) {
    && [] in s.tables && s.tables.Keys == s.entries.Keys
    && (forall p {:trigger Found(s, p)} | p in s.tables :: Found(s, p))
    && (forall p, k {:trigger Points(s, p, k)} | p in s.tables :: Points(s, p, k))
    && Apart(s)
  }

  /** Reading a document at a path. */
  function At(s: Shape, q: Path): Option<Reading> {
    if q == [] then Some(Section)
    else
      var r, k := q[..|q| - 1], q[|q| - 1];
      if r !in s.entries || k !in s.entries[r] then None
      else Some(if s.entries[r][k].Sub? then Section else Plain(s.entries[r][k].text))
  }

  /** What a document reads at every path. */
  type View = Path -> Option<Reading>

  ghost predicate Shows(s: Shape, view: View) {
    forall q: Path {:trigger At(s, q)} {:trigger view(q)} :: At(s, q) == view(q)
  }

  // --- What an override does to the readings -------------------------------------------------------

  /** Every table on the way to `p` is there. */
  ghost function Opened(view: View, p: Path): View {
    (q: Path) => if IsPrefix(q, p) then Some(Section) else view(q)
  }

  /** `p` holds the new value, the way to it is open, and nothing else changed. */
  ghost function Put(view: View, p: Path, value: View): View {
    (q: Path) =>
      if IsPrefix(p, q) then value(q[|p|..])
      else if IsPrefix(q, p) then Some(Section)
      else view(q)
  }

  predicate Diverge(p: Path, q: Path) {
    !IsPrefix(p, q) && !IsPrefix(q, p)
  }

  lemma {:induction false} PrefixesAreTables(s: Shape, p: Path, q: Path)
    requires Tree(s) && p in s.tables && IsPrefix(q, p)
    ensures q in s.tables && At(s, q) == Some(Section)
    decreases |p|
  {
    assert Found(s, p);
    if p != q {
      PrefixesAreTables(s, p[..|p| - 1], q);
    }
  }

  // --- One step down ---------------------------------------------------------------------------------

  function Entered(s: Shape, r: Path, k: string, t: Table): Shape
    requires r in s.entries
  {
    Shape(s.tables[r + [k] := t], s.entries[r := s.entries[r][k := Sub(t)]][r + [k] := map[]])
  }

  lemma EnteredIsTree(s: Shape, r: Path, k: string, t: Table)
    requires Tree(s) && r in s.tables && t !in s.tables.Values
    requires !(k in s.entries[r] && s.entries[r][k].Sub?)
    ensures Tree(Entered(s, r, k, t))
  {
    var n, p := Entered(s, r, k, t), r + [k];
    assert p[..|r|] == r && p[|r|] == k;
    assert p in s.tables ==> Found(s, p);
    forall q | q in n.tables ensures Found(n, q) {
      assert q != p ==> Found(s, q);
      assert q != [] ==> q == q[..|q| - 1] + [q[|q| - 1]];
    }
    forall q, j | q in n.tables ensures Points(n, q, j) {
      assert q != p ==> Points(s, q, j);
      assert q + [j] == p ==> q == r && j == k by {
        assert (q + [j])[..|q|] == q && (q + [j])[|q|] == j;
      }
    }
  }

  lemma EnteredReads(s: Shape, r: Path, k: string, t: Table, q: Path)
    requires Tree(s) && r in s.tables
    requires !(k in s.entries[r] && s.entries[r][k].Sub?)
    ensures At(Entered(s, r, k, t), q) == if IsPrefix(q, r + [k]) then Some(Section) else At(s, q)
  {
    var p := r + [k];
    assert p[..|r|] == r && p[|r|] == k;
    if IsPrefix(q, p) && q != p {
      assert IsPrefix(q, r);
      PrefixesAreTables(s, r, q);
    }
    assert p in s.tables ==> Found(s, p);
    if q != [] {
      assert q == q[..|q| - 1] + [q[|q| - 1]];
    }
  }

  // --- Setting the last entry ----------------------------------------------------------------------

  /** A value with the tables below it, none for text. */
  ghost predicate Whole(value: Value, below: Shape) {
    match value
    case Scalar(_) => below == Shape(map[], map[])
    case Sub(t) => Tree(below) && below.tables[[]] == t
  }

  function ValueAt(value: Value, below: Shape, q: Path): Option<Reading> {
    if q == [] && value.Scalar? then Some(Plain(value.text)) else At(below, q)
  }

  function Kept(s: Shape, p: Path): set<Path> {
    set q <- s.tables.Keys | !IsPrefix(p, q)
  }

  function Shifted(p: Path, below: Shape): set<Path> {
    set q <- below.tables.Keys :: p + q
  }

  /** The value and its tables take the place of whatever was at `r + [k]`. */
  function Grafted(s: Shape, r: Path, k: string, value: Value, below: Shape): Shape
    requires s.tables.Keys == s.entries.Keys && below.tables.Keys == below.entries.Keys && r in s.entries
  {
    var p := r + [k];
    var entries := s.entries[r := s.entries[r][k := value]];
    Shape(
      map q | q in Kept(s, p) + Shifted(p, below) :: if IsPrefix(p, q) then below.tables[q[|p|..]] else s.tables[q],
      map q | q in Kept(s, p) + Shifted(p, below) :: if IsPrefix(p, q) then below.entries[q[|p|..]] else entries[q])
  }

  /** Where the tables of a grafted shape come from. */
  lemma GraftedTables(s: Shape, r: Path, k: string, value: Value, below: Shape, q: Path)
    requires Tree(s) && Whole(value, below) && r in s.tables
    ensures var n, p := Grafted(s, r, k, value, below), r + [k];
            && (q in n.tables <==> if IsPrefix(p, q) then q[|p|..] in below.tables else q in s.tables)
            && (q in n.entries <==> q in n.tables) && (q in s.entries <==> q in s.tables)
            && (below.tables.Keys == below.entries.Keys)
            && (q in n.tables ==>
                  && n.tables[q] == (if IsPrefix(p, q) then below.tables[q[|p|..]] else s.tables[q])
                  && n.entries[q] == (if IsPrefix(p, q) then below.entries[q[|p|..]]
                                      else if q == r then s.entries[r][k := value] else s.entries[q]))
  {
    var n, p := Grafted(s, r, k, value, below), r + [k];
    if IsPrefix(p, q) {
      assert q == p + q[|p|..];
    }
    assert forall x <- below.tables.Keys :: IsPrefix(p, p + x) && (p + x)[|p|..] == x;
  }

  /** At and below the graft, the value's own readings. */
  lemma GraftedReadsBelow(s: Shape, r: Path, k: string, value: Value, below: Shape, q: Path)
    requires Tree(s) && Whole(value, below) && r in s.tables && IsPrefix(r + [k], q)
    ensures At(Grafted(s, r, k, value, below), q) == ValueAt(value, below, q[|r| + 1..])
  {
    hide Tree, Grafted;
    var p := r + [k];
    assert p[..|r|] == r && p[|r|] == k;
    var up, j := q[..|q| - 1], q[|q| - 1];
    GraftedTables(s, r, k, value, below, up);
    if q == p {
      assert up == r && j == k;
    } else {
      assert IsPrefix(p, up) && q[|p|..] == up[|p|..] + [j];
      assert q[|p|..][..|q| - |p| - 1] == up[|p|..];
    }
  }

  /** Above the graft, tables as before. */
  lemma GraftedReadsAbove(s: Shape, r: Path, k: string, value: Value, below: Shape, q: Path)
    requires Tree(s) && Whole(value, below) && r in s.tables && IsPrefix(q, r)
    ensures At(Grafted(s, r, k, value, below), q) == Some(Section)
  {
    hide Tree, Grafted;
    PrefixesAreTables(s, r, q);
    if q != [] {
      var up, j := q[..|q| - 1], q[|q| - 1];
      assert !IsPrefix(r + [k], up) && q == up + [j];
      GraftedTables(s, r, k, value, below, up);
      PrefixesAreTables(s, r, up);
      assert up != r;
    }
  }

  /** Elsewhere, what was read before. */
  lemma GraftedReadsAside(s: Shape, r: Path, k: string, value: Value, below: Shape, q: Path)
    requires Tree(s) && Whole(value, below) && r in s.tables && Diverge(r + [k], q)
    ensures At(Grafted(s, r, k, value, below), q) == At(s, q)
  {
    hide Tree, Grafted;
    if q != [] {
      var up, j := q[..|q| - 1], q[|q| - 1];
      assert q == up + [j];
      assert !IsPrefix(r + [k], up);
      GraftedTables(s, r, k, value, below, up);
    }
  }

  lemma GraftedReads(s: Shape, r: Path, k: string, value: Value, below: Shape, q: Path)
    requires Tree(s) && Whole(value, below) && r in s.tables
    ensures At(Grafted(s, r, k, value, below), q)
            == if IsPrefix(r + [k], q) then ValueAt(value, below, q[|r| + 1..])
               else if IsPrefix(q, r + [k]) then Some(Section)
               else At(s, q)
  {
    hide Tree, Grafted, At, ValueAt, Whole;
    if IsPrefix(r + [k], q) {
      GraftedReadsBelow(s, r, k, value, below, q);
    } else if IsPrefix(q, r + [k]) {
      PrefixShorter(q, r, k);
      GraftedReadsAbove(s, r, k, value, below, q);
    } else {
      GraftedReadsAside(s, r, k, value, below, q);
    }
  }

  lemma PrefixShorter(q: Path, r: Path, k: string)
    requires IsPrefix(q, r + [k]) && q != r + [k]
    ensures IsPrefix(q, r)
  {
  }

  lemma GraftedIsTree(s: Shape, r: Path, k: string, value: Value, below: Shape)
    requires Tree(s) && Whole(value, below) && r in s.tables && s.tables.Values !! below.tables.Values
    ensures Tree(Grafted(s, r, k, value, below))
  {
    var n, p := Grafted(s, r, k, value, below), r + [k];
    assert p[..|r|] == r && p[|r|] == k;
    GraftedTables(s, r, k, value, below, []);
    forall q | q in n.tables ensures Found(n, q) {
      GraftedFound(s, r, k, value, below, q);
    }
    forall q, j | q in n.tables ensures Points(n, q, j) {
      GraftedPoints(s, r, k, value, below, q, j);
    }
    GraftedApart(s, r, k, value, below);
  }

  lemma GraftedApart(s: Shape, r: Path, k: string, value: Value, below: Shape)
    requires Tree(s) && Whole(value, below) && r in s.tables && s.tables.Values !! below.tables.Values
    ensures Apart(Grafted(s, r, k, value, below))
  {
    var n, p := Grafted(s, r, k, value, below), r + [k];
    forall a, b | a in n.tables && b in n.tables && n.tables[a] == n.tables[b] ensures a == b {
      GraftedTables(s, r, k, value, below, a);
      GraftedTables(s, r, k, value, below, b);
      SharedOnlyWithin(s, below, p, a, b, n.tables[a]);
    }
  }

  lemma SharedOnlyWithin(s: Shape, below: Shape, p: Path, a: Path, b: Path, t: Table)
    requires Apart(s) && Apart(below) && s.tables.Values !! below.tables.Values
    requires if IsPrefix(p, a) then a[|p|..] in below.tables && below.tables[a[|p|..]] == t
             else a in s.tables && s.tables[a] == t
    requires if IsPrefix(p, b) then b[|p|..] in below.tables && below.tables[b[|p|..]] == t
             else b in s.tables && s.tables[b] == t
    ensures a == b
  {
    assert IsPrefix(p, a) ==> a == p + a[|p|..] && t in below.tables.Values;
    assert IsPrefix(p, b) ==> b == p + b[|p|..] && t in below.tables.Values;
    assert !IsPrefix(p, a) ==> t in s.tables.Values;
    assert !IsPrefix(p, b) ==> t in s.tables.Values;
  }

  lemma GraftedFound(s: Shape, r: Path, k: string, value: Value, below: Shape, q: Path)
    requires Tree(s) && Whole(value, below) && r in s.tables && q in Grafted(s, r, k, value, below).tables
    ensures Found(Grafted(s, r, k, value, below), q)
  {
    hide Tree, Grafted;
    var p := r + [k];
    assert p[..|r|] == r && p[|r|] == k;
    GraftedTables(s, r, k, value, below, q);
    if q != [] {
      var up := q[..|q| - 1];
      GraftedTables(s, r, k, value, below, up);
      if IsPrefix(p, q) {
        BelowFound(below, q[|p|..]);
        assert q != p ==> q[|p|..][..|q| - |p| - 1] == up[|p|..];
      } else {
        BelowFound(s, q);
        assert q == up + [q[|q| - 1]];
      }
    }
  }

  lemma BelowFound(s: Shape, q: Path)
    requires Tree(s) && q in s.tables
    ensures Found(s, q)
  {
  }

  lemma GraftedPoints(s: Shape, r: Path, k: string, value: Value, below: Shape, q: Path, j: string)
    requires Tree(s) && Whole(value, below) && r in s.tables && q in Grafted(s, r, k, value, below).tables
    ensures Points(Grafted(s, r, k, value, below), q, j)
  {
    var p := r + [k];
    assert p[..|r|] == r && p[|r|] == k;
    assert (q + [j])[..|q|] == q && (q + [j])[|q|] == j;
    GraftedTables(s, r, k, value, below, q);
    GraftedTables(s, r, k, value, below, q + [j]);
    if IsPrefix(p, q) {
      assert (q + [j])[|p|..] == q[|p|..] + [j];
      assert Points(below, q[|p|..], j);
    } else {
      assert Points(s, q, j);
      assert IsPrefix(p, q + [j]) ==> p == q + [j] && (q + [j])[|p|..] == [];
    }
  }

  lemma KeysMatch(s: Shape, value: Value, below: Shape)
    requires Tree(s) && Whole(value, below)
    ensures s.tables.Keys == s.entries.Keys && below.tables.Keys == below.entries.Keys
  {
  }

  lemma GraftedShows(s: Shape, r: Path, k: string, value: Value, below: Shape, view: View, content: View)
    requires Tree(s) && Whole(value, below) && r in s.tables && Shows(s, view)
    requires forall q {:trigger content(q)} :: ValueAt(value, below, q) == content(q)
    ensures Shows(Grafted(s, r, k, value, below), Put(view, r + [k], content))
  {
    hide Tree, Grafted, At, ValueAt, Whole;
    KeysMatch(s, value, below);
    forall q ensures At(Grafted(s, r, k, value, below), q) == Put(view, r + [k], content)(q) {
      GraftedReads(s, r, k, value, below, q);
      assert At(s, q) == view(q);
    }
  }

  lemma GraftedRoot(s: Shape, r: Path, k: string, value: Value, below: Shape)
    requires Tree(s) && Whole(value, below) && r in s.tables
    ensures var n := Grafted(s, r, k, value, below); [] in n.tables && n.tables[[]] == s.tables[[]]
    ensures forall q | q in Grafted(s, r, k, value, below).tables :: q in Grafted(s, r, k, value, below).entries
  {
    GraftedTables(s, r, k, value, below, []);
    forall q ensures q in Grafted(s, r, k, value, below).tables ==> q in Grafted(s, r, k, value, below).entries {
      GraftedTables(s, r, k, value, below, q);
    }
  }

  lemma GraftedFrom(s: Shape, r: Path, k: string, value: Value, below: Shape)
    requires Tree(s) && Whole(value, below) && r in s.tables
    ensures forall t <- Grafted(s, r, k, value, below).tables.Values :: t in s.tables.Values || t in below.tables.Values
  {
    hide Tree, Whole, Grafted;
    KeysMatch(s, value, below);
    var n := Grafted(s, r, k, value, below);
    forall t <- n.tables.Values ensures t in s.tables.Values || t in below.tables.Values {
      var q :| q in n.tables && n.tables[q] == t;
      GraftedTables(s, r, k, value, below, q);
    }
  }

  /** Only the edited table is the table at the parent's path. */
  lemma GraftedAliases(s: Shape, r: Path, k: string, value: Value, below: Shape, q: Path)
    requires Tree(s) && Whole(value, below) && r in s.tables && s.tables.Values !! below.tables.Values
    requires q in Grafted(s, r, k, value, below).tables
    ensures var t := Grafted(s, r, k, value, below).tables[q];
            if IsPrefix(r + [k], q) then t in below.tables.Values && t != s.tables[r] else q == r || t != s.tables[r]
  {
    GraftedTables(s, r, k, value, below, q);
    assert s.tables[r] in s.tables.Values;
  }

  // --- The edit in place ---------------------------------------------------------------------------

  class Document {
    const root: Table
    ghost var shape: Shape
    ghost var view: View

    ghost predicate Valid()
      reads this, shape.tables.Values
    {
      && Tree(shape) && shape.tables[[]] == root
      && (forall p {:trigger shape.tables[p]} | p in shape.tables :: shape.tables[p].entries == shape.entries[p])
      && Shows(shape, view)
    }

    constructor ()
      ensures Valid() && fresh(root) && shape.tables == map[[] := root]
      ensures forall q :: view(q) == if q == [] then Some(Section) else None
    {
      var t := new Table();
      root, shape := t, Shape(map[[] := t], map[[] := map[]]);
      view := (q: Path) => if q == [] then Some(Section) else None;
    }

    /** The next table on the way: the entry, made a table if it is not one. */
    method Descend(node: Table, segment: string, ghost r: Path) returns (next: Table)
      requires Valid() && r in shape.tables && shape.tables[r] == node
      modifies this`shape, this`view, node
      ensures Valid() && r + [segment] in shape.tables && shape.tables[r + [segment]] == next
      ensures view == Opened(old(view), r + [segment])
      ensures forall t <- shape.tables.Values :: t in old(shape.tables.Values) || fresh(t)
    {
      ghost var p := r + [segment];
      ghost var before := shape;
      if segment in node.entries && node.entries[segment].Sub? {
        next := node.entries[segment].table;
        assert Points(shape, r, segment);
        forall q ensures At(shape, q) == Opened(view, p)(q) {
          if IsPrefix(q, p) {
            PrefixesAreTables(shape, p, q);
          }
        }
      } else {
        next := new Table();
        EnteredIsTree(shape, r, segment, next);
        forall q ensures At(Entered(shape, r, segment, next), q) == Opened(view, p)(q) {
          EnteredReads(shape, r, segment, next, q);
        }
        node.entries := node.entries[segment := Sub(next)];
        shape := Entered(shape, r, segment, next);
        assert r != p;
      }
      view := Opened(view, p);
    }

    /** `insert`: the value takes the place of the entry. */
    method Insert(node: Table, key: string, value: Value, ghost r: Path, ghost below: Shape, ghost content: View)
      requires Valid() && r in shape.tables && shape.tables[r] == node
      requires Parsed(value, below, content) && shape.tables.Values !! below.tables.Values
      modifies this`shape, this`view, node
      ensures Valid() && view == Put(old(view), r + [key], content)
      ensures forall t <- shape.tables.Values :: t in old(shape.tables.Values) || t in below.tables.Values
    {
      hide Tree, Grafted, At, ValueAt, Shows;
      ghost var before := shape;
      KeysMatch(shape, value, below);
      GraftedIsTree(shape, r, key, value, below);
      GraftedShows(shape, r, key, value, below, view, content);
      GraftedRoot(shape, r, key, value, below);
      node.entries := node.entries[key := value];
      shape := Grafted(shape, r, key, value, below);
      forall q | q in shape.tables ensures shape.tables[q].entries == shape.entries[q] {
        GraftedTables(before, r, key, value, below, q);
        GraftedAliases(before, r, key, value, below, q);
      }
      GraftedFrom(before, r, key, value, below);
      view := Put(view, r + [key], content);
    }

    /** Applies one `KEY=VALUE`.  `value` is what the text after `=` parses to, with its tables and
        readings; `flag` is that value as a boolean.  A rejected override changes nothing; an accepted
        one sets exactly its path, except that `rlm=true` is accepted and ignored. */
    method ApplyOverride(spec: string, schema: Path -> bool, value: Value, flag: Option<bool>,
                         ghost below: Shape, ghost content: View)
      returns (error: Option<OverrideError>)
      requires Valid() && Parsed(value, below, content) && shape.tables.Values !! below.tables.Values
      modifies this, shape.tables.Values
      ensures Valid()
      ensures error == Verdict(spec, schema, flag)
      ensures !Edits(spec, schema) ==> shape == old(shape) && view == old(view)
      ensures Edits(spec, schema) ==> Same(view, Put(old(view), KeyPath(spec), content))
      ensures forall t <- shape.tables.Values :: t in old(shape.tables.Values) || t in below.tables.Values || fresh(t)
    {
      var halves := SplitOnce(spec, '=');
      if halves.None? {
        return Some(BadShape(spec));
      }
      var key := Trim(halves.value.0, IsWhitespace);
      if key == "rlm" {
        return CheckRetiredRlm(flag);
      }
      var path := Split(key, '.');
      if key == "" || "" in path {
        return Some(BadShape(spec));
      }
      if !schema(path) {
        return Some(UnknownKey(key));
      }
      SetAt(path, value, below, content);
      error := None;
    }

    /** From the `i`th on, the values are as they were parsed, and share no table with the document. */
    ghost predicate Unused(overrides: seq<Spec>, parts: seq<Part>, i: nat)
      requires |parts| == |overrides|
      reads this, PartTables(parts)
    {
      forall k {:trigger parts[k]} | i <= k < |parts| ::
        ParsedAs(overrides[k], parts[k]) && shape.tables.Values !! parts[k].below.tables.Values
    }

    method ApplyNext(overrides: seq<Spec>, i: nat, schema: Path -> bool, ghost parts: seq<Part>)
      returns (error: Option<OverrideError>)
      requires Valid() && i < |parts| == |overrides| && Separate(parts) && Unused(overrides, parts, i)
      modifies this, shape.tables.Values
      ensures Valid() && Unused(overrides, parts, i + 1)
      ensures error == Verdict(overrides[i].text, schema, overrides[i].flag)
      ensures if Edits(overrides[i].text, schema)
              then Same(view, Put(old(view), KeyPath(overrides[i].text), parts[i].content))
              else view == old(view)
      ensures forall t <- shape.tables.Values :: t in old(shape.tables.Values) || t in PartTables(parts) || fresh(t)
    {
      hide Parsed, Edits, Verdict, Same, Put, KeyPath, Tree, At, Shows;
      ghost var part := parts[i];
      var spec := overrides[i];
      error := ApplyOverride(spec.text, schema, spec.value, spec.flag, part.below, part.content);
      forall k | i + 1 <= k < |parts|
        ensures ParsedAs(overrides[k], parts[k]) && shape.tables.Values !! parts[k].below.tables.Values
      {
        assert part.below.tables.Values !! parts[k].below.tables.Values;
      }
    }

    /** Applies the overrides in order, up to the first that is rejected.  What the document reads is what
        the accepted ones before it make of it, put one after another. */
    method ApplyOverrides(overrides: seq<Spec>, schema: Path -> bool, ghost parts: seq<Part>)
      returns (error: Option<OverrideError>, ghost n: nat)
      requires Valid() && |parts| == |overrides| && Separate(parts) && Unused(overrides, parts, 0)
      modifies this, shape.tables.Values, PartTables(parts)
      ensures Valid() && n <= |overrides|
      ensures forall i | 0 <= i < n :: Verdict(overrides[i].text, schema, overrides[i].flag).None?
      ensures error == if n < |overrides| then Verdict(overrides[n].text, schema, overrides[n].flag) else None
      ensures n < |overrides| ==> error.Some?
      ensures Same(view, PutAll(old(view), Edited(overrides[..n], parts[..n], schema)))
    {
      hide Edited, PutAll, Put, Unused, Separate, Edits, Verdict, Same, KeyPath, Tree, At, Shows;
      n := 0;
      NoneEdited(view, overrides, parts, schema);
      for i := 0 to |overrides|
        invariant n == i && Valid() && Unused(overrides, parts, i)
        invariant forall k | 0 <= k < i :: Verdict(overrides[k].text, schema, overrides[k].flag).None?
        invariant Same(view, PutAll(old(view), Edited(overrides[..i], parts[..i], schema)))
        invariant forall t <- shape.tables.Values :: t in old(shape.tables.Values) || t in PartTables(parts) || fresh(t)
      {
        ghost var before := view;
        error := ApplyNext(overrides, i, schema, parts);
        if error.Some? {
          RejectedEditsNothing(overrides[i].text, schema, overrides[i].flag);
          return;
        }
        NextEdited(old(view), before, view, overrides, parts, i, schema);
        n := n + 1;
      }
      assert overrides[..|overrides|] == overrides && parts[..|parts|] == parts;
      error := None;
    }

    method SetAt(path: Path, value: Value, ghost below: Shape, ghost content: View)
      requires Valid() && path != [] && Parsed(value, below, content) && shape.tables.Values !! below.tables.Values
      modifies this, shape.tables.Values
      ensures Valid() && Same(view, Put(old(view), path, content))
      ensures forall t <- shape.tables.Values :: t in old(shape.tables.Values) || t in below.tables.Values || fresh(t)
    {
      hide Tree, At, Shows, ValueAt, Whole, Put, Opened;
      var last := |path| - 1;
      ghost var was := view;
      var node := Walk(path[..last]);
      assert path == path[..last] + [path[last]];
      PutOpened(was, view, path[..last], path[last], content);
      Insert(node, path[last], value, path[..last], below, content);
    }

    /** The table that is to hold the last key, with every table on the way made. */
    method Walk(parents: Path) returns (node: Table)
      requires Valid()
      modifies this, shape.tables.Values
      ensures Valid() && parents in shape.tables && shape.tables[parents] == node
      ensures Same(view, Opened(old(view), parents))
      ensures forall t <- shape.tables.Values :: t in old(shape.tables.Values) || fresh(t)
    {
      hide Tree, At, Shows, Opened;
      node := root;
      RootIsOpen(shape, view);
      for i := 0 to |parents|
        invariant Valid() && parents[..i] in shape.tables && shape.tables[parents[..i]] == node
        invariant Same(view, Opened(old(view), parents[..i]))
        invariant forall t <- shape.tables.Values :: t in old(shape.tables.Values) || fresh(t)
      {
        assert parents[..i + 1] == parents[..i] + [parents[i]];
        OpenFurther(old(view), view, parents[..i], parents[i]);
        node := Descend(node, parents[i], parents[..i]);
      }
      assert parents[..|parents|] == parents;
    }
  }

  /** A value as it was parsed: its tables as they are, and what it reads at every path below it. */
  ghost predicate Parsed(value: Value, below: Shape, content: View)
    reads below.tables.Values
  {
    && Whole(value, below)
    && (forall p {:trigger below.tables[p]} | p in below.tables ::
          p in below.entries && below.tables[p].entries == below.entries[p])
    && forall q {:trigger content(q)} :: ValueAt(value, below, q) == content(q)
  }

  lemma RootIsOpen(s: Shape, view: View)
    requires Tree(s) && Shows(s, view)
    ensures [] in s.tables && Same(view, Opened(view, []))
  {
    assert At(s, []) == view([]);
  }

  ghost predicate Same(v: View, w: View) {
    forall q {:trigger v(q)} {:trigger w(q)} :: v(q) == w(q)
  }

  lemma OpenFurther(f: View, v: View, r: Path, k: string)
    requires Same(v, Opened(f, r))
    ensures Same(Opened(v, r + [k]), Opened(f, r + [k]))
  {
    forall q ensures Opened(v, r + [k])(q) == Opened(f, r + [k])(q) {
      assert v(q) == Opened(f, r)(q);
      assert IsPrefix(q, r) ==> IsPrefix(q, r + [k]) by {
        assert IsPrefix(q, r) ==> (r + [k])[..|q|] == r[..|q|] == q;
      }
    }
  }

  lemma PutOpened(f: View, v: View, r: Path, k: string, content: View)
    requires Same(v, Opened(f, r))
    ensures Same(Put(v, r + [k], content), Put(f, r + [k], content))
  {
    forall q ensures Put(v, r + [k], content)(q) == Put(f, r + [k], content)(q) {
      assert v(q) == Opened(f, r)(q);
      assert IsPrefix(q, r) ==> IsPrefix(q, r + [k]) by {
        assert IsPrefix(q, r) ==> (r + [k])[..|q|] == r[..|q|] == q;
      }
    }
  }

  /** One `KEY=VALUE` with what its value parses to, and the tables and readings of that. */
  datatype Spec = Spec(text: string, value: Value, flag: Option<bool>)

  datatype Part = Part(below: Shape, content: View)

  ghost predicate ParsedAs(spec: Spec, part: Part)
    reads part.below.tables.Values
  {
    Parsed(spec.value, part.below, part.content)
  }

  /** No two values share a table. */
  ghost predicate Separate(parts: seq<Part>) {
    forall i, j {:trigger parts[i], parts[j]} | 0 <= i < j < |parts| ::
      parts[i].below.tables.Values !! parts[j].below.tables.Values
  }

  ghost function PartTables(parts: seq<Part>): set<Table> {
    set i, t | 0 <= i < |parts| && t in parts[i].below.tables.Values :: t
  }

  /** The overrides among these that edit the document. */
  ghost function Edited(overrides: seq<Spec>, parts: seq<Part>, schema: Path -> bool): seq<Override>
    requires |overrides| == |parts|
    decreases |overrides|
  {
    if overrides == [] then []
    else
      var n := |overrides| - 1;
      Edited(overrides[..n], parts[..n], schema)
      + if Edits(overrides[n].text, schema) then [Override(KeyPath(overrides[n].text), parts[n].content)] else []
  }

  lemma NoneEdited(view: View, overrides: seq<Spec>, parts: seq<Part>, schema: Path -> bool)
    requires |overrides| == |parts|
    ensures Same(view, PutAll(view, Edited(overrides[..0], parts[..0], schema)))
  {
  }

  lemma PutSame(v: View, w: View, p: Path, content: View)
    requires Same(v, w)
    ensures Same(Put(v, p, content), Put(w, p, content))
  {
  }

  lemma NextEdited(was: View, v: View, w: View, overrides: seq<Spec>, parts: seq<Part>, i: nat, schema: Path -> bool)
    requires i < |overrides| == |parts|
    requires Same(v, PutAll(was, Edited(overrides[..i], parts[..i], schema)))
    requires if Edits(overrides[i].text, schema)
             then Same(w, Put(v, KeyPath(overrides[i].text), parts[i].content))
             else w == v
    ensures Same(w, PutAll(was, Edited(overrides[..i + 1], parts[..i + 1], schema)))
  {
    hide Put, Edits, KeyPath;
    var os := Edited(overrides[..i], parts[..i], schema);
    assert overrides[..i + 1][..i] == overrides[..i] && parts[..i + 1][..i] == parts[..i];
    if Edits(overrides[i].text, schema) {
      var o := Override(KeyPath(overrides[i].text), parts[i].content);
      PutOneMore(was, os, o);
      PutSame(v, PutAll(was, os), o.path, o.content);
    } else {
      assert os + [] == os;
    }
  }

  lemma RejectedEditsNothing(text: string, schema: Path -> bool, flag: Option<bool>)
    requires Verdict(text, schema, flag).Some?
    ensures !Edits(text, schema)
  {
  }

  /** The retired setting: `rlm=true` is accepted and sets nothing. */
  lemma RetiredIsIgnored(schema: Path -> bool)
    ensures Verdict("rlm=true", schema, Some(true)).None? && !Edits("rlm=true", schema)
  {
    assert "rlm=true" == "rlm" + "=" + "true";
    SplitOnceFinds("rlm", '=', "true");
    TrimUnwraps("", "rlm", "", IsWhitespace);
    assert "" + "rlm" + "" == "rlm";
  }

  datatype OverrideError = BadShape(spec: string) | UnknownKey(key: string) | RetiredRlm | InvalidRlm

  function CheckRetiredRlm(flag: Option<bool>): Option<OverrideError> {
    match flag
    case Some(true) => None
    case Some(false) => Some(RetiredRlm)
    case None => Some(InvalidRlm)
  }

  /** The trimmed key of a well-shaped override. */
  function KeyOf(spec: string): Option<string> {
    match SplitOnce(spec, '=')
    case None => None
    case Some((k, _)) => Some(Trim(k, IsWhitespace))
  }

  function KeyPath(spec: string): Path {
    match KeyOf(spec)
    case None => []
    case Some(key) => Split(key, '.')
  }

  /** The override names a known setting other than the retired one, by a path without gaps. */
  predicate Edits(spec: string, schema: Path -> bool) {
    && KeyOf(spec).Some? && KeyOf(spec) != Some("rlm") && KeyOf(spec) != Some("")
    && "" !in KeyPath(spec) && schema(KeyPath(spec))
  }

  function Verdict(spec: string, schema: Path -> bool, flag: Option<bool>): Option<OverrideError> {
    if KeyOf(spec) == Some("rlm") then CheckRetiredRlm(flag)
    else if Edits(spec, schema) then None
    else if KeyOf(spec).None? || KeyOf(spec) == Some("") || "" in KeyPath(spec) then Some(BadShape(spec))
    else Some(UnknownKey(KeyOf(spec).value))
  }

  // --- The laws of overrides -------------------------------------------------------------------------

  /** An accepted override: its path and what its value reads. */
  datatype Override = Override(path: Path, content: View)

  ghost function PutAll(view: View, os: seq<Override>): View
    decreases |os|
  {
    if os == [] then view else Put(PutAll(view, os[..|os| - 1]), os[|os| - 1].path, os[|os| - 1].content)
  }

  /** The last override whose path lies on the way to `x`, or `x` on the way to it. */
  ghost function LastTouching(os: seq<Override>, x: Path): Option<Override>
    decreases |os|
  {
    if os == [] then None
    else if !Diverge(os[|os| - 1].path, x) then Some(os[|os| - 1])
    else LastTouching(os[..|os| - 1], x)
  }

  /** The last override on a path wins: every reading comes from the last override that touches it,
      and what none of them touches reads as before. */
  lemma {:induction false} LastOneWins(view: View, os: seq<Override>, x: Path)
    ensures PutAll(view, os)(x)
            == match LastTouching(os, x)
               case None => view(x)
               case Some(o) => if IsPrefix(o.path, x) then o.content(x[|o.path|..]) else Some(Section)
    decreases |os|
  {
    if os != [] {
      LastOneWins(view, os[..|os| - 1], x);
    }
  }

  lemma PutOneMore(view: View, os: seq<Override>, o: Override)
    ensures PutAll(view, os + [o]) == Put(PutAll(view, os), o.path, o.content)
  {
    assert (os + [o])[..|os|] == os;
  }

  lemma TouchedByOne(p: Path, q: Path, x: Path)
    requires Diverge(p, q)
    ensures !(IsPrefix(p, x) && !Diverge(q, x)) && !(IsPrefix(q, x) && !Diverge(p, x))
  {
  }

  /** Neighbouring overrides of diverging paths may be swapped anywhere in the list. */
  lemma {:induction false} DivergingCommute(view: View, a: seq<Override>, o: Override, u: Override, b: seq<Override>,
                                            x: Path)
    requires Diverge(o.path, u.path)
    ensures PutAll(view, a + [o, u] + b)(x) == PutAll(view, a + [u, o] + b)(x)
    decreases |b|
  {
    if b == [] {
      assert a + [o, u] + b == a + [o] + [u] && a + [u, o] + b == a + [u] + [o];
      var w := PutAll(view, a);
      PutOneMore(view, a, o);
      PutOneMore(view, a, u);
      PutOneMore(view, a + [o], u);
      PutOneMore(view, a + [u], o);
      TouchedByOne(o.path, u.path, x);
    } else {
      var init := b[..|b| - 1];
      assert (a + [o, u] + b)[..|a| + 1 + |b|] == a + [o, u] + init;
      assert (a + [u, o] + b)[..|a| + 1 + |b|] == a + [u, o] + init;
      DivergingCommute(view, a, o, u, init, x);
    }
  }

  // --- What an override says, character by character ----------------------------------------------------

  /** The key before the first `=`, without the spaces around it, names the path segment by segment. */
  lemma PathOfSpec(pre: string, path: Path, post: string, raw: string)
    requires AllOf(pre, IsWhitespace) && AllOf(post, IsWhitespace) && path != []
    requires forall segment <- path :: '.' !in segment
    requires var key := JoinWith(path, '.');
             key != "" && '=' !in key && !IsWhitespace(key[0]) && !IsWhitespace(key[|key| - 1])
    ensures var spec := pre + JoinWith(path, '.') + post + "=" + raw;
            KeyOf(spec) == Some(JoinWith(path, '.')) && KeyPath(spec) == path
  {
    var key := JoinWith(path, '.');
    var before := pre + key + post;
    assert '=' !in pre by {
      SpaceIsNoSign(pre);
    }
    assert '=' !in post by {
      SpaceIsNoSign(post);
    }
    SplitOnceFinds(before, '=', raw);
    TrimUnwraps(pre, key, post, IsWhitespace);
    SplitJoined(path, '.');
  }

  lemma SpaceIsNoSign(s: string)
    requires AllOf(s, IsWhitespace)
    ensures '=' !in s
  {
    assert !IsWhitespace('=');
  }

  /** Exactly when an override is rejected, and why. */
  lemma VerdictOfSpec(pre: string, path: Path, post: string, raw: string, schema: Path -> bool, flag: Option<bool>)
    requires AllOf(pre, IsWhitespace) && AllOf(post, IsWhitespace) && path != []
    requires forall segment <- path :: '.' !in segment
    requires var key := JoinWith(path, '.');
             key != "" && '=' !in key && !IsWhitespace(key[0]) && !IsWhitespace(key[|key| - 1])
    ensures var spec := pre + JoinWith(path, '.') + post + "=" + raw;
            Verdict(spec, schema, flag)
            == if path == ["rlm"] then
                 match flag
                 case Some(true) => None
                 case Some(false) => Some(RetiredRlm)
                 case None => Some(InvalidRlm)
               else if "" in path then Some(BadShape(spec))
               else if schema(path) then None
               else Some(UnknownKey(JoinWith(path, '.')))
    ensures var spec := pre + JoinWith(path, '.') + post + "=" + raw;
            Edits(spec, schema) <==> path != ["rlm"] && "" !in path && schema(path)
  {
    PathOfSpec(pre, path, post, raw);
    SplitJoined(path, '.');
    SplitJoined(["rlm"], '.');
    assert JoinWith(["rlm"], '.') == "rlm";
  }

  /** Without a `=`, or with nothing but space before it, an override has no shape. */
  lemma ShapelessSpec(blank: string, raw: string, schema: Path -> bool, flag: Option<bool>)
    requires AllOf(blank, IsWhitespace)
    ensures '=' !in raw ==> Verdict(raw, schema, flag) == Some(BadShape(raw)) && !Edits(raw, schema)
    ensures Verdict(blank + "=" + raw, schema, flag) == Some(BadShape(blank + "=" + raw))
    ensures !Edits(blank + "=" + raw, schema)
  {
    SpaceIsNoSign(blank);
    SplitOnceFinds(blank, '=', raw);
    AllTrimmed(blank);
  }

  lemma {:induction false} AllTrimmed(s: string)
    requires AllOf(s, IsWhitespace)
    ensures TrimStart(s, IsWhitespace) == "" && Trim(s, IsWhitespace) == ""
    decreases |s|
  {
    if s != "" {
      AllTrimmed(s[1..]);
    }
  }
}
