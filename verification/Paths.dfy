/**
 The file names the engine derives: the hidden partial of an upload
 (src/transfer/transfer-paths.ts) and the collision-free final names
 (`finalizeWithoutOverwrite` in src/transfer/laptop-data-plane.ts).
 */
module Paths {
  import opened TransferFile

  const PARTIAL_SUFFIX := ".vidyut-part"

  function PartialPathFor(destination: Path, fileId: string): Path {
    Path(destination.dir, "." + destination.name + "." + fileId + PARTIAL_SUFFIX)
  }

  /** The index of the last dot of a name, or -1. */
  function LastDot(name: string): (i: int)
    ensures -1 <= i < |name|
    ensures i >= 0 ==> name[i] == '.'
    ensures forall j :: i < j < |name| ==> name[j] != '.'
  {
    if name == [] then -1
    else if name[|name| - 1] == '.' then |name| - 1
    else LastDot(name[..|name| - 1])
  }

  /** `extname`: from the last dot on, unless that dot starts the name or the name is two dots. */
  function Extension(name: string): string {
    var i := LastDot(name);
    if i <= 0 || name == ".." then "" else name[i..]
  }

  function Stem(name: string): string {
    var i := LastDot(name);
    if i <= 0 || name == ".." then name else name[..i]
  }

  function Digit(d: nat): char
    requires d < 10
  {
    '0' + d as char
  }

  function Decimal(n: nat): string {
    if n < 10 then [Digit(n)] else Decimal(n / 10) + [Digit(n % 10)]
  }

  /** The `suffix`-th final name tried for a requested path. */
  function Candidate(requested: Path, suffix: nat): Path {
    if suffix == 0 then requested
    else Path(requested.dir,
              Stem(requested.name) + " (" + Decimal(suffix) + ")" + Extension(requested.name))
  }

  // ----- distinct uploads, distinct partials -------------------------------

  predicate DotFree(id: string) {
    forall i :: 0 <= i < |id| ==> id[i] != '.'
  }

  /** The text before the suffix of a partial name ends in a dot and the file id. */
  function Core(destination: Path, fileId: string): string {
    "." + destination.name + "." + fileId
  }

  lemma LastDotOfCore(destination: Path, fileId: string)
    requires DotFree(fileId)
    ensures LastDot(Core(destination, fileId)) == |destination.name| + 1
    ensures Core(destination, fileId)[|destination.name| + 2..] == fileId
  {
    var core := Core(destination, fileId);
    var d := |destination.name| + 1;
    assert core[d] == '.';
    assert core[d + 1..] == fileId;
    forall j | d < j < |core|
      ensures core[j] != '.'
    {
      assert core[j] == fileId[j - d - 1];
    }
  }

  /**
   Two uploads never share a partial file: file ids hold no dot (they match
   `[A-Za-z0-9_-]{16,128}`), so the id can be read back from the name.
   */
  lemma PartialNamesAreDistinct(left: Path, leftId: string, right: Path, rightId: string)
    requires DotFree(leftId) && DotFree(rightId)
    ensures PartialPathFor(left, leftId) == PartialPathFor(right, rightId) <==> left == right && leftId == rightId
  {
    if PartialPathFor(left, leftId) == PartialPathFor(right, rightId) {
      var a, b := PartialPathFor(left, leftId).name, PartialPathFor(right, rightId).name;
      assert a[..|a| - |PARTIAL_SUFFIX|] == Core(left, leftId);
      assert b[..|b| - |PARTIAL_SUFFIX|] == Core(right, rightId);
      LastDotOfCore(left, leftId);
      LastDotOfCore(right, rightId);
      var core := Core(left, leftId);
      assert core[1..|left.name| + 1] == left.name;
      assert core[1..|right.name| + 1] == right.name;
    }
  }

  // ----- distinct candidates -----------------------------------------------

  lemma {:induction false} DecimalIsInjective(m: nat, n: nat)
    ensures Decimal(m) == Decimal(n) ==> m == n
  {
    if Decimal(m) == Decimal(n) {
      var s, t := Decimal(m), Decimal(n);
      assert s[|s| - 1] == Digit(m % 10);
      assert t[|t| - 1] == Digit(n % 10);
      assert m % 10 == n % 10;
      if m >= 10 && n >= 10 {
        assert s[..|s| - 1] == Decimal(m / 10);
        assert t[..|t| - 1] == Decimal(n / 10);
        DecimalIsInjective(m / 10, n / 10);
      } else if m >= 10 {
        DecimalIsNonempty(m / 10);
      } else if n >= 10 {
        DecimalIsNonempty(n / 10);
      }
    }
  }

  lemma DecimalIsNonempty(n: nat)
    ensures |Decimal(n)| >= 1
  {
  }

  /** The ten thousand names tried for one file are pairwise different. */
  lemma CandidatesAreDistinct(requested: Path, m: nat, n: nat)
    requires m != n
    ensures Candidate(requested, m) != Candidate(requested, n)
  {
    var stem, ext := Stem(requested.name), Extension(requested.name);
    StemAndExtension(requested.name);
    if m != 0 && n != 0 {
      if Candidate(requested, m) == Candidate(requested, n) {
        var a, b := Candidate(requested, m).name, Candidate(requested, n).name;
        assert a == stem + " (" + Decimal(m) + ")" + ext;
        assert b == stem + " (" + Decimal(n) + ")" + ext;
        assert |Decimal(m)| == |Decimal(n)|;
        assert a[|stem| + 2..|stem| + 2 + |Decimal(m)|] == Decimal(m);
        assert b[|stem| + 2..|stem| + 2 + |Decimal(n)|] == Decimal(n);
        DecimalIsInjective(m, n);
      }
    } else {
      var k := if m == 0 then n else m;
      assert |Candidate(requested, k).name| > |requested.name|;
    }
  }

  lemma StemAndExtension(name: string)
    ensures name == Stem(name) + Extension(name)
  {
  }

  // ----- what a candidate looks like ---------------------------------------

  /** The number a string of digits stands for, read from the left. */
  function ReadDecimal(digits: string): nat
    requires forall i :: 0 <= i < |digits| ==> '0' <= digits[i] <= '9'
  {
    if digits == "" then 0
    else 10 * ReadDecimal(digits[..|digits| - 1]) + (digits[|digits| - 1] as nat - '0' as nat)
  }

  /** How a positive number is written: digits that read back as it, the first of them no zero. */
  predicate Numeral(digits: string, n: nat) {
    && digits != "" && digits[0] != '0'
    && (forall i :: 0 <= i < |digits| ==> '0' <= digits[i] <= '9')
    && ReadDecimal(digits) == n
  }

  lemma {:induction false} DecimalIsNumeral(n: nat)
    requires n > 0
    ensures Numeral(Decimal(n), n)
  {
    if n >= 10 {
      DecimalIsNumeral(n / 10);
      assert Decimal(n)[..|Decimal(n)| - 1] == Decimal(n / 10);
    } else {
      assert Decimal(n)[..0] == "";
    }
  }

  lemma {:induction false} NumeralIsDecimal(digits: string, n: nat)
    requires Numeral(digits, n)
    ensures n > 0 && digits == Decimal(n)
  {
    var k := |digits| - 1;
    var d := digits[k] as nat - '0' as nat;
    assert digits == digits[..k] + [Digit(d)];
    if k == 0 {
      assert digits[..0] == "";
      assert ReadDecimal(digits) == 10 * ReadDecimal("") + d;
    } else {
      NumeralIsDecimal(digits[..k], ReadDecimal(digits[..k]));
      assert n == 10 * ReadDecimal(digits[..k]) + d;
    }
  }

  /** The name ends in an extension from `dot` on: its last dot, neither leading nor one of two; or it has none. */
  predicate SplitsAt(name: string, dot: nat) {
    if 0 < dot < |name| && name != ".." then name[dot] == '.' && forall j :: dot < j < |name| ==> name[j] != '.'
    else dot == |name| && (name == ".." || forall j :: 0 < j < |name| ==> name[j] != '.')
  }

  /** `path` is the requested one, or beside it with the number before the extension: `photo (1).jpg` for `photo.jpg`. */
  ghost predicate NamedBeside(requested: Path, n: nat, path: Path) {
    && path.dir == requested.dir
    && if n == 0 then path.name == requested.name
       else exists dot: nat, digits ::
              && SplitsAt(requested.name, dot) && dot <= |requested.name| && Numeral(digits, n)
              && path.name == requested.name[..dot] + " (" + digits + ")" + requested.name[dot..]
  }

  lemma SplitIsUnique(name: string, dot: nat)
    requires SplitsAt(name, dot)
    ensures dot <= |name| && name[..dot] == Stem(name) && name[dot..] == Extension(name)
  {
    var i := LastDot(name);
    if 0 < dot < |name| && name != ".." {
      assert i == dot;
    }
  }

  lemma SplitExists(name: string)
    ensures SplitsAt(name, |Stem(name)|)
  {
  }

  /** The candidates are exactly that. */
  lemma {:induction false} CandidateExactly(requested: Path, n: nat, path: Path)
    ensures path == Candidate(requested, n) <==> NamedBeside(requested, n, path)
  {
    if n > 0 {
      var name := requested.name;
      if path == Candidate(requested, n) {
        SplitExists(name);
        SplitIsUnique(name, |Stem(name)|);
        DecimalIsNumeral(n);
        assert path.name == name[..|Stem(name)|] + " (" + Decimal(n) + ")" + name[|Stem(name)|..];
      }
      if NamedBeside(requested, n, path) {
        var dot: nat, digits :| SplitsAt(name, dot) && dot <= |name| && Numeral(digits, n)
                                && path.name == name[..dot] + " (" + digits + ")" + name[dot..];
        SplitIsUnique(name, dot);
        NumeralIsDecimal(digits, n);
      }
    }
  }

  /** A partial lies hidden beside its destination: a leading dot, the destination's name, the file id and a fixed ending. */
  lemma PartialIsHiddenBeside(destination: Path, fileId: string)
    ensures var partial := PartialPathFor(destination, fileId);
            && partial.dir == destination.dir
            && partial.name[0] == '.' && partial != destination
            && partial.name[1..] == destination.name + "." + fileId + ".vidyut-part"
  {
    assert |PartialPathFor(destination, fileId).name| > |destination.name|;
  }
}
