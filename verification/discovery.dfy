/**
 * Module discovery: which subdirectories of a modules root are modules, and
 * in what order their configuration files are merged. The directory listing
 * is a parameter: each entry is a name, whether it is a directory, the
 * manifest its `MODULE.yaml` loads to (the empty dict when there is none)
 * and the set of regular files it holds.
 */
module Discovery {
  import opened Wrappers
  import opened Values

  const ManifestFileName := "MODULE.yaml"
  const DefaultConfigFileName := "config.yaml"

  datatype Entry = Entry(name: string, isDir: bool, manifest: Dict, files: set<string>)

  /** The modules root: not a directory, or a directory with its entries. */
  datatype Listing = NotADirectory | Directory(entries: seq<Entry>)

  /** A config path is the module directory's name and the file inside it. */
  datatype ConfigPath = ConfigPath(dir: string, file: string)

  /** A discovered module: its name, directory name, manifest order and config path. */
  datatype Found = Found(name: Value, dirName: string, order: int, path: ConfigPath)

  /** Python's `<` on strings: lexicographic by code point. */
  predicate StrLess(a: string, b: string)
    decreases |a|
  {
    if |a| == 0 then |b| > 0
    else if |b| == 0 then false
    else if a[0] != b[0] then a[0] < b[0]
    else StrLess(a[1..], b[1..])
  }

  lemma {:induction false} StrLessIrreflexive(a: string)
    ensures !StrLess(a, a)
    decreases |a|
  {
    if |a| > 0 {
      StrLessIrreflexive(a[1..]);
    }
  }

  lemma {:induction false} StrLessTrans(a: string, b: string, c: string)
    requires StrLess(a, b) && StrLess(b, c)
    ensures StrLess(a, c)
    decreases |a|
  {
    if |a| > 0 && a[0] == b[0] && b[0] == c[0] {
      StrLessTrans(a[1..], b[1..], c[1..]);
    }
  }

  lemma {:induction false} StrLessTotal(a: string, b: string)
    requires a != b
    ensures StrLess(a, b) || StrLess(b, a)
    decreases |a|
  {
    if |a| > 0 && |b| > 0 && a[0] == b[0] {
      assert a == [a[0]] + a[1..] && b == [b[0]] + b[1..];
      StrLessTotal(a[1..], b[1..]);
    }
  }

  /** The sort key `(order, directory name)`, compared as a Python tuple. */
  predicate KeyLess(x: Found, y: Found) {
    x.order < y.order || (x.order == y.order && StrLess(x.dirName, y.dirName))
  }

  lemma KeyLessTrans(x: Found, y: Found, z: Found)
    requires KeyLess(x, y) && KeyLess(y, z)
    ensures KeyLess(x, z)
  {
    if x.order == y.order && y.order == z.order {
      StrLessTrans(x.dirName, y.dirName, z.dirName);
    }
  }

  lemma KeyLessIrreflexive(x: Found)
    ensures !KeyLess(x, x)
  {
    StrLessIrreflexive(x.dirName);
  }

  /** Ordered by key: no later element has a smaller key than an earlier one. */
  predicate Sorted(s: seq<Found>) {
    forall i, j :: 0 <= i < j < |s| ==> !KeyLess(s[j], s[i])
  }

  /**
   * Insertion behind every element whose key is not larger, which keeps
   * the sort stable.
   */
  function Insert(s: seq<Found>, x: Found): (r: seq<Found>)
    ensures multiset(r) == multiset(s) + multiset{x}
  {
    if s == [] then [x]
    else if KeyLess(x, s[0]) then [x] + s
    else
      assert s == [s[0]] + s[1..];
      [s[0]] + Insert(s[1..], x)
  }

  /** Insertion into a sorted sequence keeps it sorted. */
  lemma {:induction false} InsertSorted(s: seq<Found>, x: Found)
    requires Sorted(s)
    ensures Sorted(Insert(s, x))
  {
    if s != [] {
      if KeyLess(x, s[0]) {
        InsertFront(s, x);
      } else {
        assert Sorted(s[1..]);
        InsertSorted(s[1..], x);
        InsertBehind(s, x, Insert(s[1..], x));
      }
    }
  }

  lemma InsertFront(s: seq<Found>, x: Found)
    requires s != [] && Sorted(s) && KeyLess(x, s[0])
    ensures Sorted([x] + s)
  {
    var r := [x] + s;
    forall i, j | 0 <= i < j < |r| ensures !KeyLess(r[j], r[i]) {
      if i == 0 {
        if KeyLess(r[j], x) {
          if j == 1 {
            KeyLessTrans(x, s[0], x);
            KeyLessIrreflexive(x);
          } else {
            KeyLessTrans(s[j - 1], x, s[0]);
          }
        }
      }
    }
  }

  lemma InsertBehind(s: seq<Found>, x: Found, rest: seq<Found>)
    requires s != [] && Sorted(s) && !KeyLess(x, s[0])
    requires Sorted(rest)
    requires multiset(rest) == multiset(s[1..]) + multiset{x}
    ensures Sorted([s[0]] + rest)
  {
    var r := [s[0]] + rest;
    forall i, j | 0 <= i < j < |r| ensures !KeyLess(r[j], r[i]) {
      if i == 0 {
        assert r[j] == rest[j - 1];
        assert r[j] in multiset(rest);
        if r[j] != x {
          assert r[j] in multiset(s[1..]);
          var k :| 0 <= k < |s[1..]| && s[1..][k] == r[j];
          assert s[k + 1] == r[j];
        }
      }
    }
  }

  /** `result.sort(key=lambda x: (x[2], x[1]))`, a stable sort. */
  function SortByKey(s: seq<Found>): (r: seq<Found>)
    ensures multiset(r) == multiset(s)
    ensures Sorted(r)
  {
    if s == [] then []
    else
      assert s == s[..|s| - 1] + [s[|s| - 1]];
      var sorted := SortByKey(s[..|s| - 1]);
      InsertSorted(sorted, s[|s| - 1]);
      Insert(sorted, s[|s| - 1])
  }

  /** With distinct directory names the keys strictly increase. */
  lemma SortedStrictly(s: seq<Found>)
    requires Sorted(s)
    requires forall i, j :: 0 <= i < j < |s| ==> s[i].dirName != s[j].dirName
    ensures forall i, j :: 0 <= i < j < |s| ==> KeyLess(s[i], s[j])
  {
    forall i, j | 0 <= i < j < |s| ensures KeyLess(s[i], s[j]) {
      StrLessTotal(s[i].dirName, s[j].dirName);
    }
  }

  /** No two records share a directory name, as entries of one directory do not. */
  predicate DistinctDirs(s: seq<Found>) {
    forall i, j :: 0 <= i < j < |s| ==> s[i].dirName != s[j].dirName
  }

  /** Removing one record keeps the rest's directory names distinct and apart from its own. */
  lemma DropAt(s: seq<Found>, k: nat)
    requires k < |s| && DistinctDirs(s)
    ensures var rest := s[..k] + s[k + 1..];
      && multiset(rest) == multiset(s) - multiset{s[k]}
      && DistinctDirs(rest)
      && forall x :: x in multiset(rest) ==> x.dirName != s[k].dirName
  {
    var rest := s[..k] + s[k + 1..];
    assert s == s[..k] + [s[k]] + s[k + 1..];
    forall i, j | 0 <= i < j < |rest| ensures rest[i].dirName != rest[j].dirName {
      var i' := if i < k then i else i + 1;
      var j' := if j < k then j else j + 1;
      assert rest[i] == s[i'] && rest[j] == s[j'];
    }
    forall x | x in multiset(rest) ensures x.dirName != s[k].dirName {
      var m :| 0 <= m < |rest| && rest[m] == x;
      var m' := if m < k then m else m + 1;
      assert s[m'] == x && m' != k;
    }
  }

  /** The first record and the rest, as multisets. */
  lemma HeadTail(s: seq<Found>)
    requires s != []
    ensures multiset(s[1..]) == multiset(s) - multiset{s[0]}
    ensures forall j :: 0 < j < |s| ==> s[j] == s[1..][j - 1]
  {
    assert s == [s[0]] + s[1..];
  }

  /** Reordering records keeps their directory names distinct. */
  lemma {:induction false} DistinctDirsPermutation(s: seq<Found>, r: seq<Found>)
    requires multiset(s) == multiset(r) && DistinctDirs(s)
    ensures DistinctDirs(r)
    decreases |r|
  {
    if r != [] {
      assert r[0] in multiset(r);
      var k :| 0 <= k < |s| && s[k] == r[0];
      var rest := s[..k] + s[k + 1..];
      DropAt(s, k);
      HeadTail(r);
      DistinctDirsPermutation(rest, r[1..]);
      forall j | 0 < j < |r| ensures r[0].dirName != r[j].dirName {
        assert r[j] in multiset(r[1..]);
      }
    }
  }

  /** Two lists whose keys strictly increase and that hold the same records start alike. */
  lemma SameHead(s: seq<Found>, t: seq<Found>)
    requires s != []
    requires forall i, j :: 0 <= i < j < |s| ==> KeyLess(s[i], s[j])
    requires forall i, j :: 0 <= i < j < |t| ==> KeyLess(t[i], t[j])
    requires multiset(s) == multiset(t)
    ensures t != [] && s[0] == t[0]
  {
    assert s[0] in multiset(t);
    var k :| 0 <= k < |t| && t[k] == s[0];
    assert t[0] in multiset(s);
    var m :| 0 <= m < |s| && s[m] == t[0];
    if m != 0 {
      KeyLessIrreflexive(s[0]);
      if k != 0 {
        KeyLessTrans(s[0], t[0], s[0]);
      }
      assert false;
    }
  }

  /** Two lists whose keys strictly increase and that hold the same records are equal. */
  lemma {:induction false} StrictlySortedUnique(s: seq<Found>, t: seq<Found>)
    requires forall i, j :: 0 <= i < j < |s| ==> KeyLess(s[i], s[j])
    requires forall i, j :: 0 <= i < j < |t| ==> KeyLess(t[i], t[j])
    requires multiset(s) == multiset(t)
    ensures s == t
    decreases |s|
  {
    if s != [] {
      SameHead(s, t);
      HeadTail(s);
      HeadTail(t);
      StrictlySortedUnique(s[1..], t[1..]);
      assert s == [s[0]] + s[1..] && t == [t[0]] + t[1..];
    }
  }

  /**
   * With distinct directory names the sorted records do not depend on the
   * order the entries were listed in.
   */
  lemma SortIgnoresInputOrder(s: seq<Found>, t: seq<Found>)
    requires multiset(s) == multiset(t) && DistinctDirs(s)
    ensures SortByKey(s) == SortByKey(t)
  {
    var a, b := SortByKey(s), SortByKey(t);
    DistinctDirsPermutation(s, a);
    DistinctDirsPermutation(s, b);
    SortedStrictly(a);
    SortedStrictly(b);
    StrictlySortedUnique(a, b);
  }

  /** `manifest.get("config_file") or "config.yaml"`; a truthy non-string cannot be joined to a path. */
  function ConfigFile(manifest: Dict): (r: Result<string, PyError>)
    ensures !Truthy(Get(manifest, "config_file", Null)) ==> r == Ok(DefaultConfigFileName)
    ensures Get(manifest, "config_file", Null).Str? && manifest["config_file"].s != "" ==> r == Ok(manifest["config_file"].s)
    ensures r.Err? <==> Truthy(Get(manifest, "config_file", Null)) && !manifest["config_file"].Str?
  {
    var v := Get(manifest, "config_file", Null);
    if !Truthy(v) then Ok(DefaultConfigFileName)
    else if v.Str? then Ok(v.s)
    else Err(TypeError)
  }

  /**
   * The manifest order when it is a number, truncated as `int()` does (a
   * bool counts, being an int in Python); anything else is 0.
   */
  function OrderOf(manifest: Dict): (n: int)
    ensures Get(manifest, "order", Null).Int? ==> n == manifest["order"].i
    ensures Get(manifest, "order", Null).Real? ==> n == Trunc(manifest["order"].r)
    ensures !(Get(manifest, "order", Null).Int? || Get(manifest, "order", Null).Real? || Get(manifest, "order", Null).Bool?) ==> n == 0
  {
    match Get(manifest, "order", Null)
    case Int(i) => i
    case Bool(b) => if b then 1 else 0
    case Real(r) => Trunc(r)
    case _ => 0
  }

  /** The manifest name when truthy, else the directory name. */
  function NameOf(e: Entry): (v: Value)
    ensures Truthy(v)  || e.name == ""
    ensures Truthy(Get(e.manifest, "name", Null)) ==> v == e.manifest["name"]
    ensures !Truthy(Get(e.manifest, "name", Null)) ==> v == Str(e.name)
  {
    var v := Get(e.manifest, "name", Null);
    if Truthy(v) then v else Str(e.name)
  }

  /** The entry is skipped before its manifest is read. */
  predicate Skipped(e: Entry) {
    !e.isDir || (|e.name| > 0 && e.name[0] == '.') || e.name == "__pycache__"
  }

  /** The manifest says `enabled: false` (only the boolean, not other falsy values). */
  predicate Disabled(e: Entry) {
    Get(e.manifest, "enabled", Null) == Bool(false)
  }

  /** What the loop body does with one entry: skip it, record it, or raise. */
  function Consider(e: Entry): (r: Result<Option<Found>, PyError>)
    ensures r.Err? <==> !Skipped(e) && !Disabled(e) && ConfigFile(e.manifest).Err?
    ensures r.Ok? && r.value.Some? <==>
      !Skipped(e) && !Disabled(e) && ConfigFile(e.manifest).Ok? && ConfigFile(e.manifest).value in e.files
    ensures r.Ok? && r.value.Some? ==>
      r.value.value == Found(NameOf(e), e.name, OrderOf(e.manifest), ConfigPath(e.name, ConfigFile(e.manifest).value))
  {
    if Skipped(e) || Disabled(e) then Ok(None)
    else
      match ConfigFile(e.manifest)
      case Err(err) => Err(err)
      case Ok(file) =>
        if file in e.files then Ok(Some(Found(NameOf(e), e.name, OrderOf(e.manifest), ConfigPath(e.name, file))))
        else Ok(None)
  }

  /** The loop over the entries, in listing order; the first exception ends it. */
  function Collect(es: seq<Entry>): (r: Result<seq<Found>, PyError>)
    ensures r.Ok? <==> forall i :: 0 <= i < |es| ==> Consider(es[i]).Ok?
    ensures r.Ok? ==> forall f :: f in r.value <==> exists i :: 0 <= i < |es| && Consider(es[i]) == Ok(Some(f))
  {
    if es == [] then Ok([])
    else
      var rest := Collect(es[1..]);
      match Consider(es[0])
      case Err(err) => Err(err)
      case Ok(o) =>
        if rest.Err? then
          assert !Consider(es[1..][LeastErr(es[1..])]).Ok?;
          Err(rest.error)
        else
          var r := if o.Some? then [o.value] + rest.value else rest.value;
          CollectMembers(es, o, rest.value, r);
          Ok(r)
  }

  /** An index of an entry whose step raises, for a list that has one. */
  function LeastErr(es: seq<Entry>): (i: nat)
    requires exists i :: 0 <= i < |es| && !Consider(es[i]).Ok?
    ensures i < |es| && !Consider(es[i]).Ok?
  {
    if !Consider(es[0]).Ok? then 0
    else
      assert exists i :: 0 <= i < |es[1..]| && !Consider(es[1..][i]).Ok? by {
        var i :| 0 <= i < |es| && !Consider(es[i]).Ok?;
        assert es[1..][i - 1] == es[i];
      }
      1 + LeastErr(es[1..])
  }

  lemma CollectMembers(es: seq<Entry>, o: Option<Found>, rest: seq<Found>, r: seq<Found>)
    requires es != [] && Consider(es[0]) == Ok(o)
    requires forall f :: f in rest <==> exists i :: 0 <= i < |es[1..]| && Consider(es[1..][i]) == Ok(Some(f))
    requires r == if o.Some? then [o.value] + rest else rest
    ensures forall f :: f in r <==> exists i :: 0 <= i < |es| && Consider(es[i]) == Ok(Some(f))
  {
    forall f ensures f in r <==> exists i :: 0 <= i < |es| && Consider(es[i]) == Ok(Some(f)) {
      if f in rest {
        var i :| 0 <= i < |es[1..]| && Consider(es[1..][i]) == Ok(Some(f));
        assert Consider(es[i + 1]) == Ok(Some(f));
      }
      if exists i :: 0 <= i < |es| && Consider(es[i]) == Ok(Some(f)) {
        var i :| 0 <= i < |es| && Consider(es[i]) == Ok(Some(f));
        if i > 0 {
          assert es[1..][i - 1] == es[i];
        }
      }
    }
  }

  /** `discover_modules`: the modules found, sorted by (order, directory name). */
  function Discover(root: Listing): (r: Result<seq<Found>, PyError>)
    ensures root.NotADirectory? ==> r == Ok([])
    ensures root.Directory? ==> (r.Ok? <==> Collect(root.entries).Ok?)
    ensures root.Directory? && r.Ok? ==> multiset(r.value) == multiset(Collect(root.entries).value)
    ensures r.Ok? ==> Sorted(r.value)
  {
    match root
    case NotADirectory => Ok([])
    case Directory(es) =>
      match Collect(es)
      case Err(err) => Err(err)
      case Ok(found) => Ok(SortByKey(found))
  }

  /** A module is found exactly when some entry's step records it. */
  lemma DiscoverMembers(es: seq<Entry>, f: Found)
    requires Discover(Directory(es)).Ok?
    ensures f in Discover(Directory(es)).value <==> exists i :: 0 <= i < |es| && Consider(es[i]) == Ok(Some(f))
  {
    var found := Collect(es).value;
    var r := Discover(Directory(es)).value;
    assert f in r <==> f in multiset(r);
    assert f in found <==> f in multiset(found);
  }

  /** `get_module_config_paths`: the config paths of the discovered modules, in the same order. */
  function ConfigPaths(root: Listing): (r: Result<seq<ConfigPath>, PyError>)
    ensures r.Ok? <==> Discover(root).Ok?
    ensures r.Ok? ==> |r.value| == |Discover(root).value|
    ensures r.Ok? ==> forall i :: 0 <= i < |r.value| ==> r.value[i] == Discover(root).value[i].path
  {
    match Discover(root)
    case Err(err) => Err(err)
    case Ok(found) => Ok(seq(|found|, i requires 0 <= i < |found| => found[i].path))
  }
}
