/** Read denials under a path-based profile: which denials `validate_denials`
    accepts, and why an accepted denial cannot be moved away from its path. */
module Denials {

  import opened Seatbelt
  import opened Wrappers

  // ----- Validation

  /** A denial, and whether its bytes are UTF-8. */
  datatype Denial = Denial(path: Path, utf8: bool)

  datatype Refusal = NotUtf8(denial: Path) | Nested(denial: Path, writable: Path)

  /** `deny` is inside `writable` (or is it) without being a direct child. */
  predicate NestedDenial(deny: Path, writable: Path) {
    Under(deny, writable) && !(deny != [] && deny[..|deny| - 1] == writable)
  }

  /** A direct child of a writable path is accepted, and so is every path outside
      it; the path itself and everything deeper is refused. */
  lemma NestedByDepth(deny: Path, writable: Path)
    ensures NestedDenial(deny, writable) <==> writable <= deny && |deny| != |writable| + 1
  {
    if writable <= deny && |deny| == |writable| + 1 { assert deny[..|deny| - 1] == writable; }
  }

  function Writables(root: Path, readWrite: seq<Path>): seq<Path> { [root] + readWrite + [TMP] }

  /** These are the paths under which the rendered profile permits writes. */
  lemma WritablesMatchProfile(j: Jail, p: Path)
    ensures Writable(j, p) <==> p == NULL_DEVICE || exists w | w in Writables(j.root, j.readWrite) :: Under(p, w)
  {
    hide Under;
    var all := Writables(j.root, j.readWrite);
    assert j.root in all && TMP in all && forall w | w in j.readWrite :: w in all;
  }

  predicate Holds(d: Denial, writables: seq<Path>) {
    d.utf8 && forall w | w in writables :: !NestedDenial(d.path, w)
  }

  /** The refusal names the first denial that cannot be held, and the first
      writable path that is the reason. */
  predicate Blames(e: Refusal, d: Denial, writables: seq<Path>) {
    match e
    case NotUtf8(path) => path == d.path && !d.utf8
    case Nested(path, w) =>
      && path == d.path && d.utf8
      && NestedDenial(path, w)
      && exists k | 0 <= k < |writables| :: writables[k] == w && forall i | 0 <= i < k :: !NestedDenial(path, writables[i])
  }

  method ValidateDenials(root: Path, readWrite: seq<Path>, denials: seq<Denial>) returns (r: Option<Refusal>)
    ensures r.None? <==> forall d | d in denials :: Holds(d, Writables(root, readWrite))
    ensures r.Some? ==> exists n | 0 <= n < |denials| ::
              Blames(r.value, denials[n], Writables(root, readWrite))
              && forall i | 0 <= i < n :: Holds(denials[i], Writables(root, readWrite))
  {
    var writables := Writables(root, readWrite);
    for n := 0 to |denials|
      invariant forall i | 0 <= i < n :: Holds(denials[i], writables)
    {
      var d := denials[n];
      if !d.utf8 {
        assert Blames(NotUtf8(d.path), d, writables) && d in denials && !Holds(d, writables);
        return Some(NotUtf8(d.path));
      }
      for k := 0 to |writables|
        invariant forall i | 0 <= i < k :: !NestedDenial(d.path, writables[i])
      {
        if NestedDenial(d.path, writables[k]) {
          assert writables[k] in writables;
          assert Blames(Nested(d.path, writables[k]), d, writables) && d in denials && !Holds(d, writables);
          return Some(Nested(d.path, writables[k]));
        }
      }
    }
    return None;
  }

  // ----- A file system the child changes

  /** The identity of a file, directory or link. */
  type Object = nat

  type Files = map<Path, Object>

  datatype Change =
    | Rename(source: Path, target: Path)
    | Create(path: Path, node: Object)
    | Remove(path: Path)

  function Moved(p: Path, source: Path, target: Path): Path
    requires Under(p, source)
  {
    target + p[|source|..]
  }

  /** Renaming carries a whole tree and replaces what was at the target. */
  function Renamed(files: Files, source: Path, target: Path): Files {
    if source !in files || Under(target, source) then files
    else
      var kept := map p | p in files && !Under(p, source) && !Under(p, target) :: files[p];
      var moved := set p | p in files && Under(p, source) :: Moved(p, source, target);
      kept + map q | q in moved && Under(q, target) && Moved(q, target, source) in files :: files[Moved(q, target, source)]
  }

  function Changed(files: Files, c: Change): Files {
    match c
    case Rename(source, target) => Renamed(files, source, target)
    case Create(path, node) => if node in files.Values then files else files[path := node]
    case Remove(path) => files - {path}
  }

  function AllChanged(files: Files, changes: seq<Change>): Files {
    if changes == [] then files else Changed(AllChanged(files, changes[..|changes| - 1]), changes[|changes| - 1])
  }

  // ----- What the child may do

  datatype Grants = Grants(writables: seq<Path>, denials: seq<Path>)

  ghost predicate Masked(g: Grants, p: Path) { exists d | d in g.denials :: Under(p, d) }

  ghost predicate Inside(g: Grants, p: Path) { exists w | w in g.writables :: w < p }

  ghost predicate Reachable(g: Grants, p: Path) { Inside(g, p) && !Masked(g, p) }

  ghost predicate Permitted(g: Grants, c: Change) {
    match c
    case Rename(source, target) => Reachable(g, source) && Reachable(g, target)
    case Create(path, _) => Reachable(g, path)
    case Remove(path) => Reachable(g, path)
  }

  /** The denied part of the file system is the same. */
  ghost predicate SameDenied(g: Grants, a: Files, b: Files) {
    forall p | Masked(g, p) :: (p in a <==> p in b) && (p in a ==> a[p] == b[p])
  }

  ghost predicate Stable(g: Grants) {
    forall files: Files, changes: seq<Change> | (forall c | c in changes :: Permitted(g, c)) ::
      SameDenied(g, files, AllChanged(files, changes))
  }

  /** A directory that lies strictly between a writable path and a denial, and
      that no denial covers. */
  ghost predicate Exposed(g: Grants, d: Path, w: Path) {
    d in g.denials && w in g.writables && Under(d, w) && |d| >= |w| + 2 && !Masked(g, d[..|w| + 1])
  }

  ghost predicate Sealed(g: Grants) { forall d, w :: !Exposed(g, d, w) }

  // ----- Sealed denials stay

  lemma PrefixesNest(a: Path, b: Path, p: Path)
    requires Under(p, a) && Under(p, b)
    ensures |a| <= |b| ==> Under(b, a)
  {
    assert p[..|a|] == a && p[..|b|] == b;
  }

  /** What the child can reach is above a denial only when that is exposed. */
  lemma AboveDenialIsExposed(g: Grants, p: Path, q: Path) returns (d: Path, w: Path)
    requires Reachable(g, p) && Masked(g, q) && Under(q, p)
    ensures Exposed(g, d, w)
  {
    w :| w in g.writables && w < p;
    d :| d in g.denials && Under(q, d);
    PrefixesNest(d, p, q);
    PrefixesNest(p, d, q);
    assert |d| > |p| && Under(d, p);
    assert d[..|w| + 1] == p[..|w| + 1];
    assert forall e | Under(p[..|w| + 1], e) :: Under(p, e);
  }

  lemma RenameKeepsDenied(g: Grants, files: Files, source: Path, target: Path)
    requires Sealed(g) && Reachable(g, source) && Reachable(g, target)
    ensures SameDenied(g, files, Renamed(files, source, target))
  {
    hide Exposed, Reachable;
    var after := Renamed(files, source, target);
    forall p | Masked(g, p)
      ensures (p in files <==> p in after) && (p in files ==> files[p] == after[p])
    {
      if Under(p, source) { var d, w := AboveDenialIsExposed(g, source, p); }
      if Under(p, target) { var d, w := AboveDenialIsExposed(g, target, p); }
    }
  }

  lemma ChangeKeepsDenied(g: Grants, files: Files, c: Change)
    requires Sealed(g) && Permitted(g, c)
    ensures SameDenied(g, files, Changed(files, c))
  {
    hide Sealed, Renamed, Masked, Inside;
    if c.Rename? {
      RenameKeepsDenied(g, files, c.source, c.target);
    }
  }

  lemma {:induction false} ChangesKeepDenied(g: Grants, files: Files, changes: seq<Change>)
    requires Sealed(g) && forall c | c in changes :: Permitted(g, c)
    ensures SameDenied(g, files, AllChanged(files, changes))
    decreases |changes|
  {
    hide Sealed, Permitted, Changed, Masked;
    if changes != [] {
      var init, last := changes[..|changes| - 1], changes[|changes| - 1];
      assert last in changes && (forall c | c in init :: c in changes);
      ChangesKeepDenied(g, files, init);
      ChangeKeepsDenied(g, AllChanged(files, init), last);
    }
  }

  // ----- An exposed denial moves

  /** A name longer than the component of every denial at one depth. */
  function FreshName(denials: seq<Path>, depth: nat): (name: string)
    ensures name != "" && forall d | d in denials && |d| > depth :: |d[depth]| < |name|
  {
    if denials == [] then "x"
    else
      var rest := FreshName(denials[1..], depth);
      if |denials[0]| > depth && |denials[0][depth]| >= |rest| then denials[0][depth] + "x" else rest
  }

  lemma SiblingReachable(g: Grants, d: Path, w: Path)
    requires Exposed(g, d, w)
    ensures Reachable(g, d[..|w| + 1]) && Reachable(g, w + [FreshName(g.denials, |w|)])
  {
    var source, target := d[..|w| + 1], w + [FreshName(g.denials, |w|)];
    assert w < source && w < target;
    forall e | e in g.denials && |e| > |w|
      ensures !Under(target, e)
    {
      assert |e[|w|]| < |target[|w|]|;
    }
    assert forall e | Under(target, e) && |e| <= |w| :: Under(source, e);
  }

  lemma MoveBack(d: Path, source: Path, target: Path)
    requires Under(d, source)
    ensures Under(Moved(d, source, target), target) && Moved(Moved(d, source, target), target, source) == d
  {
  }

  lemma RenameMoves(files: Files, source: Path, target: Path, d: Path)
    requires source in files && d in files && Under(d, source) && !Under(target, source) && !Under(d, target)
    ensures d !in Renamed(files, source, target)
    ensures Moved(d, source, target) in Renamed(files, source, target)
    ensures Renamed(files, source, target)[Moved(d, source, target)] == files[d]
  {
    MoveBack(d, source, target);
    hide Moved;
  }

  /** One permitted rename takes the denied object to a path that is not denied. */
  lemma ExposedMoves(g: Grants, d: Path, w: Path, files: Files)
    requires Exposed(g, d, w) && d in files && d[..|w| + 1] in files
    ensures var source, target := d[..|w| + 1], w + [FreshName(g.denials, |w|)];
            && Permitted(g, Rename(source, target))
            && var after := Changed(files, Rename(source, target));
            && d !in after
            && Moved(d, source, target) in after && after[Moved(d, source, target)] == files[d]
  {
    hide Renamed, Moved, Reachable, FreshName;
    var source, target := d[..|w| + 1], w + [FreshName(g.denials, |w|)];
    SiblingReachable(g, d, w);
    NotPrefix(g, d, w);
    assert Under(d, source);
    MoveBack(d, source, target);
    RenameMoves(files, source, target, d);
  }

  lemma NotPrefix(g: Grants, d: Path, w: Path)
    requires Exposed(g, d, w)
    ensures var target := w + [FreshName(g.denials, |w|)]; !Under(d, target) && !Under(target, d[..|w| + 1])
  {
    assert |d[|w|]| < |FreshName(g.denials, |w|)|;
  }

  /** The denied part of the file system survives every sequence of permitted
      changes exactly when no denial is exposed. */
  lemma StableIffSealed(g: Grants)
    ensures Stable(g) <==> Sealed(g)
  {
    hide Permitted, SameDenied, AllChanged;
    if Sealed(g) {
      forall files: Files, changes: seq<Change> | (forall c | c in changes :: Permitted(g, c))
        ensures SameDenied(g, files, AllChanged(files, changes))
      {
        ChangesKeepDenied(g, files, changes);
      }
    } else {
      var d, w :| Exposed(g, d, w);
      ExposedIsUnstable(g, d, w);
    }
  }

  lemma ExposedIsUnstable(g: Grants, d: Path, w: Path)
    requires Exposed(g, d, w)
    ensures !Stable(g)
  {
    hide Renamed, Moved, Permitted, FreshName;
    var source, target := d[..|w| + 1], w + [FreshName(g.denials, |w|)];
    var files: Files := map[d := 1, source := 2];
    ExposedMoves(g, d, w, files);
    var changes := [Rename(source, target)];
    assert changes[..0] == [];
    assert AllChanged(files, changes) == Changed(AllChanged(files, []), changes[0]);
    assert Under(d, d) && Masked(g, d);
  }

  // ----- Accepted jails

  function PathsOf(denials: seq<Denial>): (r: seq<Path>)
    ensures |r| == |denials| && forall i | 0 <= i < |denials| :: r[i] == denials[i].path
  {
    seq(|denials|, i requires 0 <= i < |denials| => denials[i].path)
  }

  /** Each object is at one path. */
  ghost predicate Unaliased(files: Files) { forall p, q | p in files && q in files && files[p] == files[q] :: p == q }

  lemma RenamedFrom(files: Files, source: Path, target: Path, q: Path) returns (p: Path)
    requires q in Renamed(files, source, target) && source in files && !Under(target, source)
    ensures p in files && Renamed(files, source, target)[q] == files[p]
    ensures if Under(p, source) then q == Moved(p, source, target) else p == q
  {
    if Under(q, target) {
      p := Moved(q, target, source);
      assert Moved(p, source, target) == q;
    } else {
      p := q;
    }
  }

  lemma RenameKeepsUnaliased(files: Files, source: Path, target: Path)
    requires Unaliased(files)
    ensures Unaliased(Renamed(files, source, target))
  {
    hide Moved;
    var after := Renamed(files, source, target);
    if source in files && !Under(target, source) {
      hide Renamed;
      forall p, q | p in after && q in after && after[p] == after[q]
        ensures p == q
      {
        var p0 := RenamedFrom(files, source, target, p);
        var q0 := RenamedFrom(files, source, target, q);
      }
    }
  }

  lemma {:induction false} ChangesKeepUnaliased(files: Files, changes: seq<Change>)
    requires Unaliased(files)
    ensures Unaliased(AllChanged(files, changes))
    decreases |changes|
  {
    hide Renamed;
    if changes != [] {
      var before, last := AllChanged(files, changes[..|changes| - 1]), changes[|changes| - 1];
      ChangesKeepUnaliased(files, changes[..|changes| - 1]);
      if last.Rename? { RenameKeepsUnaliased(before, last.source, last.target); }
    }
  }

  lemma AcceptedIsSealed(g: Grants)
    requires forall d, w | d in g.denials && w in g.writables :: !NestedDenial(d, w)
    ensures Sealed(g)
  {
  }

  /** Under an accepted jail, after any permitted changes every denied object is
      at its denied path and at no other. */
  lemma AcceptedDenialsAreStable(root: Path, readWrite: seq<Path>, denials: seq<Denial>, files: Files, changes: seq<Change>)
    requires forall d | d in denials :: Holds(d, Writables(root, readWrite))
    requires Unaliased(files)
    requires forall c | c in changes :: Permitted(Grants(Writables(root, readWrite), PathsOf(denials)), c)
    ensures var g, after := Grants(Writables(root, readWrite), PathsOf(denials)), AllChanged(files, changes);
            forall p | p in files && Masked(g, p) ::
              p in after && after[p] == files[p] && forall q | q in after && after[q] == files[p] :: q == p
  {
    hide Permitted, Masked, AllChanged, Sealed, NestedDenial, Writables;
    var g := Grants(Writables(root, readWrite), PathsOf(denials));
    forall d, w | d in g.denials && w in g.writables
      ensures !NestedDenial(d, w)
    {
      var i :| 0 <= i < |denials| && g.denials[i] == d;
      assert denials[i] in denials;
    }
    AcceptedIsSealed(g);
    ChangesKeepDenied(g, files, changes);
    ChangesKeepUnaliased(files, changes);
  }

  /** The refusal is cautious: a denial below another denial, and a denial of a
      writable path itself, are refused although nothing permitted can move them. */
  lemma RefusedThoughSealed(w: Path, a: string, b: string)
    ensures var g := Grants([w], [w + [a], w + [a, b]]); Sealed(g) && NestedDenial(w + [a, b], w)
    ensures var g := Grants([w], [w]); Sealed(g) && NestedDenial(w, w)
  {
    assert w != [] ==> w[..|w| - 1] != w;
    var g := Grants([w], [w + [a], w + [a, b]]);
    assert (w + [a, b])[..|w| + 1] == w + [a];
    assert (w + [a]) in g.denials && Under(w + [a], w + [a]);
  }
}
