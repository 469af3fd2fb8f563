/**
 * The viewer's navigation state (src/main.rs, `AppState`): the image files
 * of the current directory in order, the index of the one shown, the zoom
 * scale, and a rotation per path.
 *
 * Rotations are i32 values the source only ever produces by adding 90 or 270
 * to a value in 0..360 and taking Rust's remainder, so they stay far from
 * overflow; the model's `int` with `RustRem` is exact there.
 */
module AppState {
  import opened Wrappers
  import opened Paths

  /**
   * Rust's `%` on integers: the remainder of the division truncating toward
   * zero, so it takes the dividend's sign (Dafny's `%` never is negative).
   */
  function RustRem(a: int, b: int): (r: int)
    requires b > 0
    ensures -b < r < b
    ensures a >= 0 ==> r >= 0
    ensures a <= 0 ==> r <= 0
    ensures -b < a < b ==> r == a
  {
    if a >= 0 then a % b else -((-a) % b)
  }

  /** Rust's `/` on integers: the quotient truncated toward zero. */
  function RustDiv(a: int, b: int): int
    requires b > 0
  {
    if a >= 0 then a / b else -((-a) / b)
  }

  /**
   * Rust's division identity `a == (a / b) * b + a % b`; with the bounds and
   * signs of `RustRem` it pins the remainder down as the truncating one.
   */
  lemma RustDivRem(a: int, b: int)
    requires b > 0
    ensures a == RustDiv(a, b) * b + RustRem(a, b)
  {
    if a < 0 {
      var q, m := (-a) / b, (-a) % b;
      assert -a == q * b + m;
      assert RustDiv(a, b) * b == -(q * b);
    }
  }

  /** A rotation the viewer can show. */
  predicate QuarterTurn(r: int) {
    r == 0 || r == 90 || r == 180 || r == 270
  }

  /** The new rotation after `rotate_cw`. */
  function Cw(r: int): (c: int)
    ensures -360 < c < 360
    ensures -90 <= r < 270 ==> c == r + 90
    ensures 270 <= r < 630 ==> c == r - 270
  {
    RustRem(r + 90, 360)
  }

  /** The new rotation after `rotate_ccw`. */
  function Ccw(r: int): (c: int)
    ensures -360 < c < 360
    ensures -270 <= r < 90 ==> c == r + 270
    ensures 90 <= r < 450 ==> c == r - 90
  {
    RustRem(r + 270, 360)
  }

  /** On quarter turns each rotation undoes the other, and `Cw` steps through the four in order. */
  lemma RotationsOnQuarterTurns(r: int)
    requires QuarterTurn(r)
    ensures Ccw(Cw(r)) == r && Cw(Ccw(r)) == r
    ensures Cw(r) == if r == 270 then 0 else r + 90
  {
  }

  /** Both rotations keep a quarter turn a quarter turn. */
  lemma QuarterTurnsClosed(r: int)
    requires QuarterTurn(r)
    ensures QuarterTurn(Cw(r)) && QuarterTurn(Ccw(r))
  {
  }

  /** `n` clockwise turns. */
  function CwTimes(r: int, n: nat): int {
    if n == 0 then r else Cw(CwTimes(r, n - 1))
  }

  /** Any number of clockwise turns keeps a quarter turn a quarter turn. */
  lemma {:induction false} CwTimesQuarter(r: int, n: nat)
    requires QuarterTurn(r)
    ensures QuarterTurn(CwTimes(r, n))
  {
    if n > 0 {
      CwTimesQuarter(r, n - 1);
      QuarterTurnsClosed(CwTimes(r, n - 1));
    }
  }

  /** Clockwise turns of a quarter turn repeat with period four. */
  lemma CwTimesPeriodic(r: int, n: nat)
    requires QuarterTurn(r)
    ensures CwTimes(r, n + 4) == CwTimes(r, n)
  {
    CwTimesQuarter(r, n);
    FourCw(CwTimes(r, n));
    CwTimesSplit(r, n, 4);
  }

  /** Four clockwise turns are the identity. */
  lemma FourCw(r: int)
    requires QuarterTurn(r)
    ensures CwTimes(r, 4) == r
  {
  }

  /** Turning `m` and then `n` times is turning `m + n` times. */
  lemma {:induction false} CwTimesSplit(r: int, m: nat, n: nat)
    ensures CwTimes(CwTimes(r, m), n) == CwTimes(r, m + n)
  {
    if n > 0 {
      CwTimesSplit(r, m, n - 1);
    }
  }

  /** The index `next` moves to in a list of `n` files: the following one, wrapping to the first. */
  function NextIndex(i: nat, n: nat): (r: nat)
    requires n > 0
    ensures r < n
    ensures i < n - 1 ==> r == i + 1
    ensures i == n - 1 ==> r == 0
  {
    (i + 1) % n
  }

  /** The index `prev` moves to: the preceding one, wrapping to the last. */
  function PrevIndex(i: nat, n: nat): (r: nat)
    requires n > 0
    ensures r < n
    ensures 0 < i <= n ==> r == i - 1
    ensures i == 0 ==> r == n - 1
  {
    (i + n - 1) % n
  }

  /** On an index in range, `prev` undoes `next` and `next` undoes `prev`. */
  lemma NextPrevInverse(i: nat, n: nat)
    requires i < n
    ensures PrevIndex(NextIndex(i, n), n) == i
    ensures NextIndex(PrevIndex(i, n), n) == i
  {
  }

  /** `k` steps of `next` from `i`. */
  function NextTimes(i: nat, n: nat, k: nat): (r: nat)
    requires n > 0
  {
    if k == 0 then i else NextIndex(NextTimes(i, n, k - 1), n)
  }

  /**
   * Up to `n` steps of `next` from an index in range advance it by that
   * many, wrapping once past the end.
   */
  lemma {:induction false} NextTimesAdvances(i: nat, n: nat, k: nat)
    requires i < n && k <= n
    ensures NextTimes(i, n, k) == if i + k < n then i + k else i + k - n
  {
    if k > 0 {
      NextTimesAdvances(i, n, k - 1);
    }
  }

  /** `n` steps of `next` return to where they started. */
  lemma NextCycle(i: nat, n: nat)
    requires i < n
    ensures NextTimes(i, n, n) == i
  {
    NextTimesAdvances(i, n, n);
  }

  class AppState {
    var files: seq<Path>
    var currentIndex: nat
    /** The zoom factor of the picture; the operations modelled here leave it alone. */
    var scale: real
    var rotations: map<Path, int>

    /**
     * The index is in range (or 0 for an empty list), and every stored
     * rotation is a quarter turn.
     */
    ghost predicate Valid()
      reads this
    {
      && (files != [] ==> currentIndex < |files|)
      && (files == [] ==> currentIndex == 0)
      && forall p :: p in rotations ==> QuarterTurn(rotations[p])
    }

    /** `AppState::new`: no files, index 0, scale 1, no rotations. */
    constructor ()
      ensures Valid()
      ensures files == [] && currentIndex == 0 && scale == 1.0 && rotations == map[]
    {
      files := [];
      currentIndex := 0;
      scale := 1.0;
      rotations := map[];
    }

    /** `current_path`: the file at the index, if the index is in range. */
    function CurrentPath(): (r: Option<Path>)
      reads this
      ensures r.None? <==> currentIndex >= |files|
      ensures r.Some? ==> r.value in files && r.value == files[currentIndex]
    {
      if currentIndex < |files| then Some(files[currentIndex]) else None
    }

    /** `current_rotation`: the stored rotation of the current path, 0 when there is none. */
    function CurrentRotation(): (r: int)
      reads this
      ensures CurrentPath().Some? && CurrentPath().value in rotations ==> r == rotations[CurrentPath().value]
      ensures CurrentPath().None? || CurrentPath().value !in rotations ==> r == 0
    {
      match CurrentPath()
      case Some(p) => if p in rotations then rotations[p] else 0
      case None => 0
    }

    /** `rotate_cw`: the current path's rotation (0 if absent) is turned by 90 degrees. */
    method RotateCw()
      requires Valid()
      modifies this`rotations
      ensures Valid()
      ensures CurrentPath().None? ==> rotations == old(rotations)
      ensures CurrentPath().Some? ==>
                rotations == old(rotations)[CurrentPath().value := Cw(old(CurrentRotation()))]
      ensures CurrentRotation() == if CurrentPath().Some? then Cw(old(CurrentRotation())) else 0
    {
      var current := CurrentPath();
      if current.Some? {
        var path := current.value;
        var r := if path in rotations then rotations[path] else 0;
        assert r == CurrentRotation();
        var turned := Cw(r);
        QuarterTurnsClosed(r);
        rotations := rotations[path := turned];
        assert CurrentPath() == current;
        assert rotations[path] == turned;
      }
    }

    /** `rotate_ccw`: the current path's rotation (0 if absent) is turned by 270 degrees. */
    method RotateCcw()
      requires Valid()
      modifies this`rotations
      ensures Valid()
      ensures CurrentPath().None? ==> rotations == old(rotations)
      ensures CurrentPath().Some? ==>
                rotations == old(rotations)[CurrentPath().value := Ccw(old(CurrentRotation()))]
      ensures CurrentRotation() == if CurrentPath().Some? then Ccw(old(CurrentRotation())) else 0
    {
      var current := CurrentPath();
      if current.Some? {
        var path := current.value;
        var r := if path in rotations then rotations[path] else 0;
        assert r == CurrentRotation();
        var turned := Ccw(r);
        QuarterTurnsClosed(r);
        rotations := rotations[path := turned];
        assert CurrentPath() == current;
        assert rotations[path] == turned;
      }
    }

    /**
     * `load_directory`: for a path with a parent, `files` becomes the sorted
     * image files of the parent's listing and the index the opened path's
     * position among them, or 0; for the root nothing changes.
     */
    method LoadDirectory(path: Path, listing: seq<Name>)
      requires Valid()
      modifies this`files, this`currentIndex
      ensures Valid()
      ensures Parent(path).None? ==> files == old(files) && currentIndex == old(currentIndex)
      ensures Parent(path).Some? ==>
                && files == Sort(ImageFiles(Parent(path).value, listing))
                && currentIndex == Position(files, path).UnwrapOr(0)
    {
      var parent := Parent(path);
      if parent.Some? {
        var found := Sort(ImageFiles(parent.value, listing));
        currentIndex := Position(found, path).UnwrapOr(0);
        files := found;
      }
    }

    /** `next`: on an empty list, `None` and no move; otherwise the following file, cyclically. */
    method Next() returns (r: Option<Path>)
      requires Valid()
      modifies this`currentIndex
      ensures Valid()
      ensures old(files) == [] ==> r == None && currentIndex == old(currentIndex)
      ensures old(files) != [] ==>
                currentIndex == NextIndex(old(currentIndex), |files|) && r == Some(files[currentIndex])
    {
      if files == [] {
        return None;
      }
      currentIndex := NextIndex(currentIndex, |files|);
      r := CurrentPath();
    }

    /** `prev`: on an empty list, `None` and no move; otherwise the preceding file, cyclically. */
    method Prev() returns (r: Option<Path>)
      requires Valid()
      modifies this`currentIndex
      ensures Valid()
      ensures old(files) == [] ==> r == None && currentIndex == old(currentIndex)
      ensures old(files) != [] ==>
                currentIndex == PrevIndex(old(currentIndex), |files|) && r == Some(files[currentIndex])
    {
      if files == [] {
        return None;
      }
      currentIndex := PrevIndex(currentIndex, |files|);
      r := CurrentPath();
    }
  }

  /**
   * What `load_directory` leaves behind: a sorted list of image files of
   * the parent directory, holding every image name of the listing, and an
   * index that is in range and names the opened path whenever the path is
   * one of them.
   */
  lemma LoadedDirectory(path: Path, listing: seq<Name>)
    requires Parent(path).Some?
    ensures var files := Sort(ImageFiles(Parent(path).value, listing));
            && Sorted(files)
            && (forall p :: p in files <==> exists n :: n in listing && IsImageName(n) && p == Join(Parent(path).value, n))
            && (var i := Position(files, path).UnwrapOr(0);
                && (files != [] ==> i < |files|)
                && (path[|path| - 1] in listing && IsImageName(path[|path| - 1]) ==> i < |files| && files[i] == path))
    ensures Distinct(listing) ==> Distinct(Sort(ImageFiles(Parent(path).value, listing)))
  {
    var dir := Parent(path).value;
    var files := Sort(ImageFiles(dir, listing));
    forall p
      ensures p in files <==> p in ImageFiles(dir, listing)
    {
      assert p in files <==> p in multiset(files);
    }
    assert Join(dir, path[|path| - 1]) == path;
    if Distinct(listing) {
      forall p
        ensures multiset(files)[p] <= 1
      {
        if p in ImageFiles(dir, listing) {
          var n :| n in listing && IsImageName(n) && p == Join(dir, n);
          assert multiset(listing)[n] <= 1;
        }
      }
    }
  }

  /** In a valid state the rotation shown is always a quarter turn. */
  lemma CurrentRotationIsQuarterTurn(s: AppState)
    requires s.Valid()
    ensures QuarterTurn(s.CurrentRotation())
  {
  }

  /** Whatever its input, a directory load leaves every entry an image file. */
  lemma LoadedFilesAreImages(dir: Path, listing: seq<Name>)
    ensures forall p :: p in Sort(ImageFiles(dir, listing)) ==> p != [] && IsImageName(p[|p| - 1])
  {
    var files := Sort(ImageFiles(dir, listing));
    forall p | p in files
      ensures p != [] && IsImageName(p[|p| - 1])
    {
      assert p in multiset(files);
      assert p in ImageFiles(dir, listing);
    }
  }
}
