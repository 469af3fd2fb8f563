/**
 * The part of Rust's `std::path` that `AppState::load_directory` relies on:
 * `parent`, `join`, `extension`, and the ordering `Vec::sort` uses on
 * `PathBuf`s, plus the sort itself.
 *
 * A path is absolute and is known by its components below the root
 * ("/home/a.png" is ["home", "a.png"]). Its ordering is the one std
 * defines, component by component; components compare as strings, which
 * for UTF-8 is the byte order std uses. std's stable sort is stood in for
 * by an insertion sort, and `SortedUnique` shows that every sort of the
 * same list yields the same result.
 */
module Paths {
  import opened Wrappers

  /** A path component (a file or directory name). */
  type Name = string

  /** An absolute path, as its components below the root. */
  type Path = seq<Name>

  /** `Path::parent`: the root has none; any other path drops its last component. */
  function Parent(p: Path): (r: Option<Path>)
    ensures r.None? <==> p == []
    ensures r.Some? ==> r.value + [p[|p| - 1]] == p
  {
    if p == [] then None else Some(p[..|p| - 1])
  }

  /** `Path::join` with a single file name. */
  function Join(dir: Path, name: Name): (p: Path)
    ensures Parent(p) == Some(dir) && p[|p| - 1] == name
  {
    dir + [name]
  }

  /** The position of the last '.' in a name, if it has one. */
  function LastDot(name: Name): (r: Option<nat>)
    ensures r.Some? ==> r.value < |name| && name[r.value] == '.'
    ensures r.Some? ==> forall j :: r.value < j < |name| ==> name[j] != '.'
    ensures r.None? ==> forall j :: 0 <= j < |name| ==> name[j] != '.'
  {
    if name == [] then None
    else if name[|name| - 1] == '.' then Some(|name| - 1)
    else LastDot(name[..|name| - 1])
  }

  /**
   * `Path::extension` of a file name: the text after the last '.', unless
   * the name is "..", has no '.', or its only '.' is the leading one of a
   * hidden file such as ".bashrc".
   */
  function Extension(name: Name): (r: Option<string>)
    ensures r.Some? <==> name != ".." && exists i :: 0 < i < |name| && name[i] == '.'
    ensures r.Some? ==>
              && |r.value| + 1 < |name|
              && name[|name| - |r.value| - 1] == '.'
              && name[|name| - |r.value|..] == r.value
              && '.' !in r.value
  {
    if name == ".." then None
    else
      match LastDot(name)
      case None => None
      case Some(i) => if i == 0 then None else Some(name[i + 1..])
  }

  /** The eight extensions `load_directory` keeps, matched case-sensitively. */
  const ImageExtensions: set<string> := {"jpg", "jpeg", "png", "gif", "webp", "avif", "tiff", "bmp"}

  /**
   * Whether a directory entry's name carries one of the image extensions:
   * exactly when it ends in '.' and one of them after a non-empty stem.
   */
  predicate IsImageName(name: Name): (b: bool)
    ensures b <==> exists e :: e in ImageExtensions && DotSuffix(name, e)
  {
    ImageExtensionsHaveNoDot();
    ExtensionIsDotSuffix(name);
    Extension(name).Some? && Extension(name).value in ImageExtensions
  }

  /** `name` is a non-empty stem, a '.', and `e`. */
  predicate DotSuffix(name: Name, e: string) {
    |e| + 1 < |name| && name[|name| - |e| - 1] == '.' && name[|name| - |e|..] == e
  }

  /** None of the image extensions contains a '.'. */
  lemma ImageExtensionsHaveNoDot()
    ensures forall e :: e in ImageExtensions ==> e != [] && '.' !in e
  {
  }

  /** A name has a non-empty, '.'-free extension `e` exactly when it is a non-empty stem, a '.', and `e`. */
  lemma ExtensionIsDotSuffix(name: Name)
    ensures forall e :: e != [] && '.' !in e ==> (Extension(name) == Some(e) <==> DotSuffix(name, e))
  {
    forall e | e != [] && '.' !in e && DotSuffix(name, e)
      ensures Extension(name) == Some(e)
    {
      assert name[|name| - |e| - 1] == '.';
    }
  }

  /** A name ending in ".png" after a non-empty stem is an image name; "png" alone is not. */
  lemma ImageNameExamples()
    ensures IsImageName("photo.png")
    ensures IsImageName("archive.tar.gif")
    ensures !IsImageName("photo.PNG")
    ensures !IsImageName(".png")
    ensures !IsImageName("png")
  {
    var photo, archive, upper := "photo.png", "archive.tar.gif", "photo.PNG";
    assert photo[5] == '.' && archive[11] == '.' && upper[5] == '.';
    assert Extension(photo) == Some("png");
    assert Extension(archive) == Some("gif");
    assert Extension(upper) == Some("PNG");
    assert ".png"[0] == '.';
  }

  /** Lexicographic order on names, character by character; a prefix comes first. */
  predicate NameLe(a: Name, b: Name) {
    if a == [] then true
    else if b == [] then false
    else if a[0] != b[0] then a[0] < b[0]
    else NameLe(a[1..], b[1..])
  }

  lemma {:induction false} NameLeTotal(a: Name, b: Name)
    ensures NameLe(a, b) || NameLe(b, a)
  {
    if a != [] && b != [] && a[0] == b[0] {
      NameLeTotal(a[1..], b[1..]);
    }
  }

  lemma {:induction false} NameLeAntisymmetric(a: Name, b: Name)
    requires NameLe(a, b) && NameLe(b, a)
    ensures a == b
  {
    if a != [] && b != [] {
      NameLeAntisymmetric(a[1..], b[1..]);
      assert a == [a[0]] + a[1..] && b == [b[0]] + b[1..];
    }
  }

  lemma {:induction false} NameLeTransitive(a: Name, b: Name, c: Name)
    requires NameLe(a, b) && NameLe(b, c)
    ensures NameLe(a, c)
  {
    if a != [] && b != [] && c != [] && a[0] == b[0] && b[0] == c[0] {
      NameLeTransitive(a[1..], b[1..], c[1..]);
    }
  }

  /** `PathBuf`'s order: component by component, a prefix first. */
  predicate PathLe(a: Path, b: Path) {
    if a == [] then true
    else if b == [] then false
    else if a[0] != b[0] then NameLe(a[0], b[0])
    else PathLe(a[1..], b[1..])
  }

  lemma {:induction false} PathLeTotal(a: Path, b: Path)
    ensures PathLe(a, b) || PathLe(b, a)
  {
    if a != [] && b != [] {
      if a[0] != b[0] {
        NameLeTotal(a[0], b[0]);
      } else {
        PathLeTotal(a[1..], b[1..]);
      }
    }
  }

  lemma {:induction false} PathLeAntisymmetric(a: Path, b: Path)
    requires PathLe(a, b) && PathLe(b, a)
    ensures a == b
  {
    if a != [] && b != [] {
      if a[0] != b[0] {
        NameLeAntisymmetric(a[0], b[0]);
      } else {
        PathLeAntisymmetric(a[1..], b[1..]);
        assert a == [a[0]] + a[1..] && b == [b[0]] + b[1..];
      }
    }
  }

  lemma {:induction false} PathLeTransitive(a: Path, b: Path, c: Path)
    requires PathLe(a, b) && PathLe(b, c)
    ensures PathLe(a, c)
  {
    if a != [] && b != [] && c != [] {
      if a[0] == b[0] && b[0] == c[0] {
        PathLeTransitive(a[1..], b[1..], c[1..]);
      } else if a[0] != b[0] && b[0] != c[0] {
        NameLeTransitive(a[0], b[0], c[0]);
        if a[0] == c[0] {
          NameLeAntisymmetric(a[0], b[0]);
        }
      }
    }
  }

  /** A path list in non-decreasing order. */
  predicate Sorted(s: seq<Path>) {
    forall i, j :: 0 <= i < j < |s| ==> PathLe(s[i], s[j])
  }

  /** Insert `x` into a sorted list before the first element it does not exceed. */
  function Insert(x: Path, s: seq<Path>): (r: seq<Path>)
    requires Sorted(s)
    ensures Sorted(r)
    ensures multiset(r) == multiset(s) + multiset{x}
  {
    if s == [] then [x]
    else if PathLe(x, s[0]) then
      InsertFrontSorted(x, s);
      [x] + s
    else
      PathLeTotal(x, s[0]);
      var rest := Insert(x, s[1..]);
      assert s == [s[0]] + s[1..];
      InsertAfterSorted(s[0], rest);
      [s[0]] + rest
  }

  /** `x` before a sorted list it does not exceed keeps it sorted. */
  lemma InsertFrontSorted(x: Path, s: seq<Path>)
    requires Sorted(s) && s != [] && PathLe(x, s[0])
    ensures Sorted([x] + s)
  {
    forall j | 0 < j < |[x] + s|
      ensures PathLe(([x] + s)[0], ([x] + s)[j])
    {
      if j > 1 {
        PathLeTransitive(x, s[0], s[j - 1]);
      }
    }
  }

  /** `y` before a sorted list whose elements all follow it keeps it sorted. */
  lemma InsertAfterSorted(y: Path, s: seq<Path>)
    requires Sorted(s) && forall z | z in multiset(s) :: PathLe(y, z)
    ensures Sorted([y] + s)
  {
    forall j | 0 < j < |[y] + s|
      ensures PathLe(([y] + s)[0], ([y] + s)[j])
    {
      assert s[j - 1] in multiset(s);
    }
  }

  /** The sort `load_directory` applies, as an insertion sort. */
  function Sort(s: seq<Path>): (r: seq<Path>)
    ensures Sorted(r)
    ensures multiset(r) == multiset(s)
  {
    if s == [] then [] else
      assert s == [s[0]] + s[1..];
      Insert(s[0], Sort(s[1..]))
  }

  /**
   * Two sorted lists with the same elements are equal, so `Sort` agrees with
   * std's sort (or any other) on every input.
   */
  lemma {:induction false} SortedUnique(a: seq<Path>, b: seq<Path>)
    requires Sorted(a) && Sorted(b) && multiset(a) == multiset(b)
    ensures a == b
  {
    if a != [] {
      assert a[0] in multiset(b);
      SortedSameHead(a, b);
      Tail(a);
      Tail(b);
      SortedUnique(a[1..], b[1..]);
    }
  }

  /** Two sorted lists with the same elements start with the same one. */
  lemma SortedSameHead(a: seq<Path>, b: seq<Path>)
    requires Sorted(a) && Sorted(b) && multiset(a) == multiset(b) && a != []
    ensures b != [] && a[0] == b[0]
  {
    assert a[0] in multiset(b);
    assert b[0] in multiset(a);
    var i :| 0 <= i < |b| && b[i] == a[0];
    var k :| 0 <= k < |a| && a[k] == b[0];
    if a[0] != b[0] {
      assert PathLe(b[0], b[i]) && PathLe(a[0], a[k]);
      PathLeAntisymmetric(a[0], b[0]);
    }
  }

  /** A list is its head followed by its tail. */
  lemma Tail(s: seq<Path>)
    requires s != []
    ensures s == [s[0]] + s[1..]
    ensures multiset(s[1..]) == multiset(s) - multiset{s[0]}
  {
    assert s == [s[0]] + s[1..];
  }

  /** `Iterator::position` for equality: the first index holding `x`. */
  function Position(s: seq<Path>, x: Path): (r: Option<nat>)
    ensures r.None? <==> x !in s
    ensures r.Some? ==> r.value < |s| && s[r.value] == x
    ensures r.Some? ==> forall j :: 0 <= j < r.value ==> s[j] != x
  {
    if s == [] then None
    else if s[0] == x then Some(0)
    else
      match Position(s[1..], x)
      case None => None
      case Some(i) => Some(i + 1)
  }

  /**
   * The image files of a directory listing: each entry's name joined to the
   * directory, kept when its extension is an image one. Each image name
   * gives as many entries as it has in the listing.
   */
  function ImageFiles(dir: Path, listing: seq<Name>): (r: seq<Path>)
    ensures |r| <= |listing|
    ensures forall p :: p in r <==> exists n :: n in listing && IsImageName(n) && p == Join(dir, n)
    ensures forall n :: IsImageName(n) ==> multiset(r)[Join(dir, n)] == multiset(listing)[n]
  {
    if listing == [] then []
    else
      var rest := ImageFiles(dir, listing[1..]);
      assert forall n :: n in listing <==> n == listing[0] || n in listing[1..];
      assert listing == [listing[0]] + listing[1..];
      if IsImageName(listing[0]) then [Join(dir, listing[0])] + rest else rest
  }

  /** No element occurs twice. */
  ghost predicate Distinct<T(!new)>(s: seq<T>) {
    forall x :: multiset(s)[x] <= 1
  }
}
