/**
 * Names for files saved one by one into a directory: the last path segment, with a number appended
 * until no earlier name collides (lib/download/saveFile.ts, lib/download/zipDownload.ts).
 */
module DirectoryNames {
  import opened Bytes
  import Decimal

  predicate IsSeparator(c: char) {
    c == '/' || c == '\\'
  }

  predicate NoSeparator(s: string) {
    forall i :: 0 <= i < |s| ==> !IsSeparator(s[i])
  }

  /** `name.split(/[\\/]/)`. */
  function Split(name: string): (segments: seq<string>)
    ensures |segments| > 0 && forall i :: 0 <= i < |segments| ==> NoSeparator(segments[i])
  {
    if |name| == 0 then [""]
    else
      var c, before := name[|name| - 1], Split(name[..|name| - 1]);
      if IsSeparator(c) then before + [""]
      else before[|before| - 1 := before[|before| - 1] + [c]]
  }

  /** `.filter(Boolean).at(-1)`. */
  function LastNonEmpty(segments: seq<string>): (r: Option<string>)
    ensures r.Some? ==> r.value in segments && r.value != ""
    ensures r.None? ==> forall i :: 0 <= i < |segments| ==> segments[i] == ""
  {
    if |segments| == 0 then None
    else if segments[|segments| - 1] != "" then Some(segments[|segments| - 1])
    else LastNonEmpty(segments[..|segments| - 1])
  }

  /** A name a directory entry can have. */
  predicate IsEntryName(s: string) {
    s != "" && s != "." && s != ".." && NoSeparator(s)
  }

  function FilenameFromPath(name: string): (filename: string)
    ensures IsEntryName(filename)
  {
    var last := LastNonEmpty(Split(name));
    if last.Some? && last.value != "." && last.value != ".." then last.value else "download"
  }

  lemma {:induction false} SplitWithoutSeparator(name: string)
    requires NoSeparator(name)
    ensures Split(name) == [name]
  {
    if |name| > 0 {
      SplitWithoutSeparator(name[..|name| - 1]);
      assert name == name[..|name| - 1] + [name[|name| - 1]];
    }
  }

  lemma {:induction false} SplitAtLast(dir: string, separator: string, name: string)
    requires NoSeparator(name) && (separator == "/" || separator == "\\")
    ensures Split(dir + separator + name) == Split(dir) + [name]
    decreases |name|
  {
    if |name| == 0 {
      assert (dir + separator + name)[..|dir|] == dir;
    } else {
      var whole := dir + separator + name;
      assert whole[..|whole| - 1] == dir + separator + name[..|name| - 1];
      SplitAtLast(dir, separator, name[..|name| - 1]);
      assert name == name[..|name| - 1] + [name[|name| - 1]];
    }
  }

  /** A name that can stand in a directory is kept, and a directory in front of it is dropped. */
  lemma FilenameIsLastSegment(dir: string, name: string)
    requires IsEntryName(name)
    ensures FilenameFromPath(name) == name
    ensures FilenameFromPath(dir + "/" + name) == name && FilenameFromPath(dir + "\\" + name) == name
    ensures FilenameFromPath(dir + "/" + name + "/") == name
  {
    SplitWithoutSeparator(name);
    SplitAtLast(dir, "/", name);
    SplitAtLast(dir, "\\", name);
    SplitAtLast(dir + "/" + name, "/", "");
    assert dir + "/" + name + "/" + "" == dir + "/" + name + "/";
  }

  lemma DotsAreNoNames(dir: string, dots: string)
    requires dots == "." || dots == ".."
    ensures FilenameFromPath(dots) == "download"
    ensures FilenameFromPath(dir + "/" + dots) == "download"
  {
    SplitWithoutSeparator(dots);
    SplitAtLast(dir, "/", dots);
  }

  /** What cannot stand in a directory is called "download". */
  lemma OtherwiseDownload(dir: string)
    ensures FilenameFromPath("") == FilenameFromPath(".") == FilenameFromPath("..") == "download"
    ensures FilenameFromPath(dir + "/" + ".") == FilenameFromPath(dir + "/" + "..") == "download"
  {
    DotsAreNoNames(dir, ".");
    DotsAreNoNames(dir, "..");
  }

  // ---- Numbered duplicates ----

  function LastIndexOf(s: string, c: char): (i: int)
    ensures -1 <= i < |s|
    ensures i >= 0 ==> s[i] == c
    ensures forall k :: i < k < |s| ==> s[k] != c
  {
    if |s| == 0 then -1
    else if s[|s| - 1] == c then |s| - 1
    else LastIndexOf(s[..|s| - 1], c)
  }

  function Base(name: string): string {
    if LastIndexOf(name, '.') > 0 then name[..LastIndexOf(name, '.')] else name
  }

  function Extension(name: string): string {
    if LastIndexOf(name, '.') > 0 then name[LastIndexOf(name, '.')..] else ""
  }

  function Numbered(base: string, digits: string, extension: string): (s: string)
    ensures |s| == |base| + |digits| + |extension| + 3
    ensures s[|base| + 2..|base| + 2 + |digits|] == digits
  {
    base + " (" + digits + ")" + extension
  }

  function WithDuplicateSuffix(name: string, count: nat): string {
    if count == 0 then name else Numbered(Base(name), Decimal.Print(count), Extension(name))
  }

  /** The number goes in front of the extension; a name that only begins with a full stop has none. */
  lemma NumberGoesBeforeExtension(base: string, extension: string, count: nat)
    requires count > 0 && '.' !in extension
    ensures base != "" ==>
              WithDuplicateSuffix(base + "." + extension, count)
              == base + " (" + Decimal.Print(count) + ")" + ("." + extension)
    ensures WithDuplicateSuffix("." + extension, count) == "." + extension + " (" + Decimal.Print(count) + ")"
    ensures WithDuplicateSuffix(extension, count) == extension + " (" + Decimal.Print(count) + ")"
  {
    var whole, hidden := base + "." + extension, "." + extension;
    assert whole[|base|] == '.' && forall k :: |base| < k < |whole| ==> whole[k] != '.';
    assert LastIndexOf(whole, '.') == |base|;
    assert whole[..|base|] == base && whole[|base|..] == "." + extension;
    assert hidden[0] == '.' && forall k :: 0 < k < |hidden| ==> hidden[k] != '.';
    assert LastIndexOf(hidden, '.') == 0;
    assert forall k :: 0 <= k < |extension| ==> extension[k] != '.';
    assert LastIndexOf(extension, '.') == -1;
    NothingBehind(hidden, Decimal.Print(count));
    NothingBehind(extension, Decimal.Print(count));
  }

  lemma NothingBehind(name: string, digits: string)
    ensures Numbered(name, digits, "") == name + " (" + digits + ")"
  {
    var s := name + " (" + digits + ")";
    assert s + "" == s;
  }

  lemma SuffixedIsEntryName(name: string, count: nat)
    requires IsEntryName(name)
    ensures IsEntryName(WithDuplicateSuffix(name, count))
  {
    if count > 0 {
      assert NoSeparator(Base(name)) && NoSeparator(Extension(name));
      DigitsAreSafe(Decimal.Print(count));
      NoSeparatorConcat(Base(name), " (");
      NoSeparatorConcat(Base(name) + " (", Decimal.Print(count));
      NoSeparatorConcat(Base(name) + " (" + Decimal.Print(count), ")");
      NoSeparatorConcat(Base(name) + " (" + Decimal.Print(count) + ")", Extension(name));
    }
  }

  lemma NoSeparatorConcat(a: string, b: string)
    requires NoSeparator(a) && NoSeparator(b)
    ensures NoSeparator(a + b)
  {
  }

  lemma DigitsAreSafe(s: string)
    requires Decimal.AllDigits(s)
    ensures NoSeparator(s)
  {
    forall i | 0 <= i < |s|
      ensures !IsSeparator(s[i])
    {
      assert Decimal.IsDigit(s[i]);
    }
  }

  // ---- Collision keys ----

  /** Distinct numbers give one name distinct keys. */
  ghost predicate Distinguishes(key: string -> string) {
    forall name: string, i: nat, j: nat :: i < j ==>
      key(WithDuplicateSuffix(name, i)) != key(WithDuplicateSuffix(name, j))
  }

  function Fold(f: char -> char, s: string): (r: string)
    ensures |r| == |s| && forall i :: 0 <= i < |s| ==> r[i] == f(s[i])
  {
    if |s| == 0 then "" else Fold(f, s[..|s| - 1]) + [f(s[|s| - 1])]
  }

  /** Any character-by-character folding that leaves digits alone, such as lower-casing, distinguishes them. */
  lemma FoldsDistinguish(f: char -> char)
    requires forall c :: Decimal.IsDigit(c) ==> f(c) == c
    ensures Distinguishes(s => Fold(f, s))
  {
    forall name: string, i: nat, j: nat | i < j
      ensures Fold(f, WithDuplicateSuffix(name, i)) != Fold(f, WithDuplicateSuffix(name, j))
    {
      if Fold(f, WithDuplicateSuffix(name, i)) == Fold(f, WithDuplicateSuffix(name, j)) {
        SameFoldSameNumber(f, name, i, j);
      }
    }
  }

  predicate StartsWithStop(extension: string) {
    extension == "" || extension[0] == '.'
  }

  lemma BaseThenExtension(name: string)
    ensures Base(name) + Extension(name) == name
    ensures StartsWithStop(Extension(name))
  {
  }

  lemma SuffixLength(name: string, count: nat)
    ensures |WithDuplicateSuffix(name, count)| == if count == 0 then |name| else |name| + 3 + |Decimal.Print(count)|
  {
    BaseThenExtension(name);
  }

  lemma SuffixedShape(name: string, count: nat)
    requires count > 0
    ensures WithDuplicateSuffix(name, count) == (Base(name) + " (") + Decimal.Print(count) + (")" + Extension(name))
  {
  }

  lemma SameFoldSameNumber(f: char -> char, name: string, i: nat, j: nat)
    requires forall c :: Decimal.IsDigit(c) ==> f(c) == c
    requires Fold(f, WithDuplicateSuffix(name, i)) == Fold(f, WithDuplicateSuffix(name, j))
    ensures i == j
  {
    SuffixLength(name, i);
    SuffixLength(name, j);
    assert |Fold(f, WithDuplicateSuffix(name, i))| == |Fold(f, WithDuplicateSuffix(name, j))|;
    if i > 0 && j > 0 {
      SuffixedShape(name, i);
      SuffixedShape(name, j);
      SameDigits(f, Base(name) + " (", Decimal.Print(i), Decimal.Print(j), ")" + Extension(name),
                 WithDuplicateSuffix(name, i), WithDuplicateSuffix(name, j));
      Decimal.ReadPrinted(i);
      Decimal.ReadPrinted(j);
    }
  }

  lemma SameDigits(f: char -> char, head: string, p: string, q: string, tail: string, a: string, b: string)
    requires forall c :: Decimal.IsDigit(c) ==> f(c) == c
    requires |p| == |q| && Decimal.AllDigits(p) && Decimal.AllDigits(q)
    requires a == head + p + tail && b == head + q + tail && Fold(f, a) == Fold(f, b)
    ensures p == q
  {
    forall k | 0 <= k < |p|
      ensures p[k] == q[k]
    {
      assert a[|head| + k] == p[k] && b[|head| + k] == q[k];
      assert f(a[|head| + k]) == Fold(f, a)[|head| + k] == f(b[|head| + k]);
    }
  }

  /**
   * What Unicode normalisation to NFC followed by full lower-casing does to a numbered name: the space,
   * the parentheses and the digits neither compose with their neighbours nor change case, so the two
   * sides of the number are normalised on their own, each side always in the same way; and a full stop
   * never composes, so that a name with no number in it grows shorter by less than four characters
   * when its two sides come together.
   */
  ghost predicate KeepsSuffix(key: string -> string, left: string -> string, right: string -> string) {
    && (forall base: string, digits: string, extension: string
          | Decimal.AllDigits(digits) && StartsWithStop(extension) ::
          key(Numbered(base, digits, extension)) == Numbered(left(base), digits, right(extension)))
    && (forall base: string, extension: string | StartsWithStop(extension) ::
          |key(base + extension)| < |left(base)| + |right(extension)| + 4)
  }

  /** The key of a numbered name shows the number between two fixed strings. */
  lemma SuffixedKey(key: string -> string, left: string -> string, right: string -> string, name: string, count: nat)
    requires KeepsSuffix(key, left, right) && count > 0
    ensures key(WithDuplicateSuffix(name, count))
            == Numbered(left(Base(name)), Decimal.Print(count), right(Extension(name)))
    ensures |key(name)| < |key(WithDuplicateSuffix(name, count))|
  {
    BaseThenExtension(name);
    assert |key(Base(name) + Extension(name))| < |left(Base(name))| + |right(Extension(name))| + 4;
  }

  lemma MiddleIsEqual(base: string, p: string, q: string, extension: string)
    requires Numbered(base, p, extension) == Numbered(base, q, extension)
    ensures p == q
  {
    var s := Numbered(base, p, extension);
    assert s[|base| + 2..|base| + 2 + |p|] == p;
    assert s[|base| + 2..|base| + 2 + |q|] == q;
  }

  lemma NumbersDiffer(base: string, i: nat, j: nat, extension: string)
    requires i != j
    ensures Numbered(base, Decimal.Print(i), extension) != Numbered(base, Decimal.Print(j), extension)
  {
    if Numbered(base, Decimal.Print(i), extension) == Numbered(base, Decimal.Print(j), extension) {
      MiddleIsEqual(base, Decimal.Print(i), Decimal.Print(j), extension);
      Decimal.ReadPrinted(i);
      Decimal.ReadPrinted(j);
    }
  }

  /** Every such key, NFC with lower-casing among them, gives differently numbered names different keys. */
  lemma NormalisersDistinguish(key: string -> string, left: string -> string, right: string -> string)
    requires KeepsSuffix(key, left, right)
    ensures Distinguishes(key)
  {
    forall name: string, i: nat, j: nat | i < j
      ensures key(WithDuplicateSuffix(name, i)) != key(WithDuplicateSuffix(name, j))
    {
      SuffixedKey(key, left, right, name, j);
      if i > 0 {
        SuffixedKey(key, left, right, name, i);
        NumbersDiffer(left(Base(name)), i, j, right(Extension(name)));
      }
    }
  }

  // ---- The assignment ----

  /** A file's possible names: its own, then the numbered ones. */
  function Candidates(path: string): nat -> string {
    (count: nat) => WithDuplicateSuffix(FilenameFromPath(path), count)
  }

  function AllCandidates(paths: seq<string>): (all: seq<nat -> string>)
    ensures |all| == |paths| && forall i :: 0 <= i < |all| ==> all[i] == Candidates(paths[i])
  {
    seq(|paths|, i requires 0 <= i < |paths| => Candidates(paths[i]))
  }

  /** The keys of the first `n` names given out. */
  function UsedBy(key: string -> string, names: seq<string>, n: nat): set<string>
    requires n <= |names|
  {
    if n == 0 then {} else UsedBy(key, names, n - 1) + {key(names[n - 1])}
  }

  predicate AllUsed(candidates: nat -> string, key: string -> string, used: set<string>, count: nat) {
    forall c :: 0 <= c < count ==> key(candidates(c)) in used
  }

  /** The candidate with the smallest number whose key is not used. */
  predicate Assigned(candidates: nat -> string, key: string -> string, used: set<string>, name: string, count: nat) {
    && name == candidates(count)
    && key(name) !in used
    && AllUsed(candidates, key, used, count)
  }

  predicate AssignedAt(files: seq<nat -> string>, key: string -> string, names: seq<string>, counts: seq<nat>, i: nat)
    requires i < |names| && i < |files| && i < |counts|
  {
    Assigned(files[i], key, UsedBy(key, names, i), names[i], counts[i])
  }

  /** The first `n` names are assigned. */
  predicate AllAssigned(files: seq<nat -> string>, key: string -> string, names: seq<string>, counts: seq<nat>, n: nat)
    requires n <= |names| == |counts| <= |files|
  {
    n == 0 || (AllAssigned(files, key, names, counts, n - 1) && AssignedAt(files, key, names, counts, n - 1))
  }

  lemma {:induction false} EachAssigned(files: seq<nat -> string>, key: string -> string, names: seq<string>,
                                        counts: seq<nat>, n: nat, i: nat)
    requires i < n <= |names| == |counts| <= |files| && AllAssigned(files, key, names, counts, n)
    ensures AssignedAt(files, key, names, counts, i)
  {
    if i < n - 1 {
      EachAssigned(files, key, names, counts, n - 1, i);
    }
  }

  lemma {:induction false} UsedByPrefix(key: string -> string, names: seq<string>, name: string, n: nat)
    requires n <= |names|
    ensures UsedBy(key, names + [name], n) == UsedBy(key, names, n)
  {
    if n > 0 {
      UsedByPrefix(key, names, name, n - 1);
    }
  }

  lemma EarlierStays(files: seq<nat -> string>, key: string -> string, names: seq<string>, counts: seq<nat>,
                     name: string, count: nat, i: nat)
    requires i < |names| == |counts| < |files| && AssignedAt(files, key, names, counts, i)
    ensures AssignedAt(files, key, names + [name], counts + [count], i)
  {
    UsedByPrefix(key, names, name, i);
  }

  lemma LastIsAssigned(files: seq<nat -> string>, key: string -> string, names: seq<string>, counts: seq<nat>,
                       name: string, count: nat)
    requires |names| == |counts| < |files|
    requires Assigned(files[|names|], key, UsedBy(key, names, |names|), name, count)
    ensures AssignedAt(files, key, names + [name], counts + [count], |names|)
    ensures UsedBy(key, names + [name], |names| + 1) == UsedBy(key, names, |names|) + {key(name)}
  {
    UsedByPrefix(key, names, name, |names|);
  }

  lemma {:induction false} AssignedStay(files: seq<nat -> string>, key: string -> string, names: seq<string>,
                                        counts: seq<nat>, name: string, count: nat, n: nat)
    requires n <= |names| == |counts| < |files| && AllAssigned(files, key, names, counts, n)
    ensures AllAssigned(files, key, names + [name], counts + [count], n)
  {
    if n > 0 {
      AssignedStay(files, key, names, counts, name, count, n - 1);
      EarlierStays(files, key, names, counts, name, count, n - 1);
    }
  }

  lemma AssignOne(files: seq<nat -> string>, key: string -> string, names: seq<string>, counts: seq<nat>,
                  name: string, count: nat)
    requires |names| == |counts| < |files| && AllAssigned(files, key, names, counts, |names|)
    requires Assigned(files[|names|], key, UsedBy(key, names, |names|), name, count)
    ensures AllAssigned(files, key, names + [name], counts + [count], |names| + 1)
    ensures UsedBy(key, names + [name], |names| + 1) == UsedBy(key, names, |names|) + {key(name)}
  {
    AssignedStay(files, key, names, counts, name, count, |names|);
    LastIsAssigned(files, key, names, counts, name, count);
  }

  lemma {:induction false} UsedHolds(key: string -> string, names: seq<string>, i: nat, n: nat)
    requires i < n <= |names|
    ensures key(names[i]) in UsedBy(key, names, n)
  {
    if i < n - 1 {
      UsedHolds(key, names, i, n - 1);
    }
  }

  /** Names assigned this way have pairwise distinct keys. */
  lemma AssignedKeysDiffer(files: seq<nat -> string>, key: string -> string, names: seq<string>, counts: seq<nat>)
    requires |names| == |counts| <= |files| && AllAssigned(files, key, names, counts, |names|)
    ensures forall i, k :: 0 <= k < i < |names| ==> key(names[k]) != key(names[i])
  {
    forall i, k | 0 <= k < i < |names|
      ensures key(names[k]) != key(names[i])
    {
      EachAssigned(files, key, names, counts, |names|, i);
      UsedHolds(key, names, k, i);
    }
  }

  /** `counts` are the numbers the names carry; the program keeps only the names. */
  method AssignDirectoryNames(paths: seq<string>, key: string -> string) returns (names: seq<string>, counts: seq<nat>)
    requires Distinguishes(key)
    ensures |names| == |counts| == |paths| && AllAssigned(AllCandidates(paths), key, names, counts, |names|)
    ensures forall i, k :: 0 <= k < i < |names| ==> key(names[k]) != key(names[i])
  {
    forall i | 0 <= i < |paths|
      ensures Differ(AllCandidates(paths)[i], key)
    {
      CandidatesDiffer(paths[i], key);
    }
    names, counts := AssignNames(AllCandidates(paths), key);
    AssignedKeysDiffer(AllCandidates(paths), key, names, counts);
  }

  /** The pass over the entries, with the set of used keys. */
  method AssignNames(files: seq<nat -> string>, key: string -> string) returns (names: seq<string>, counts: seq<nat>)
    requires forall i :: 0 <= i < |files| ==> Differ(files[i], key)
    ensures |names| == |counts| == |files| && AllAssigned(files, key, names, counts, |names|)
  {
    var usedNames: set<string> := {};
    names, counts := [], [];
    while |names| < |files|
      invariant |names| == |counts| <= |files| && usedNames == UsedBy(key, names, |names|)
      invariant AllAssigned(files, key, names, counts, |names|)
    {
      var directoryName, duplicateCount := FreeName(files[|names|], key, usedNames);
      AssignOne(files, key, names, counts, directoryName, duplicateCount);
      usedNames := usedNames + {key(directoryName)};
      names, counts := names + [directoryName], counts + [duplicateCount];
    }
  }

  ghost predicate Differ(candidates: nat -> string, key: string -> string) {
    forall i: nat, j: nat :: i < j ==> key(candidates(i)) != key(candidates(j))
  }

  lemma CandidatesDiffer(path: string, key: string -> string)
    requires Distinguishes(key)
    ensures Differ(Candidates(path), key)
  {
  }

  /** The numbers tried so far hit as many different used keys. */
  ghost predicate Hits(hits: set<string>, candidates: nat -> string, key: string -> string, count: nat) {
    |hits| == count && forall k :: k in hits ==> exists c: nat :: c < count && k == key(candidates(c))
  }

  lemma NextHit(hits: set<string>, candidates: nat -> string, key: string -> string, count: nat)
    requires Differ(candidates, key) && Hits(hits, candidates, key, count)
    ensures Hits(hits + {key(candidates(count))}, candidates, key, count + 1)
  {
    var k := key(candidates(count));
    assert k !in hits;
    forall x | x in hits + {k}
      ensures exists c: nat :: c < count + 1 && x == key(candidates(c))
    {
      if x != k {
        var c: nat :| c < count && x == key(candidates(c));
        assert c < count + 1;
      }
    }
  }

  /**
   * The inner loop: the smallest number whose key is free. It ends because each number tried hits a
   * different used key, and there are finitely many.
   */
  method FreeName(candidates: nat -> string, key: string -> string, usedNames: set<string>)
    returns (directoryName: string, duplicateCount: nat)
    requires Differ(candidates, key)
    ensures Assigned(candidates, key, usedNames, directoryName, duplicateCount)
  {
    directoryName, duplicateCount := candidates(0), 0;
    ghost var hits: set<string> := {};
    while key(directoryName) in usedNames
      invariant directoryName == candidates(duplicateCount)
      invariant AllUsed(candidates, key, usedNames, duplicateCount)
      invariant hits <= usedNames && Hits(hits, candidates, key, duplicateCount)
      decreases |usedNames| - duplicateCount
    {
      NextHit(hits, candidates, key, duplicateCount);
      hits := hits + {key(directoryName)};
      SubsetSize(hits, usedNames);
      duplicateCount := duplicateCount + 1;
      directoryName := candidates(duplicateCount);
    }
  }

  /** Every name given out can stand in the directory, and the first file of its name keeps it. */
  lemma AssignedNamesFit(paths: seq<string>, key: string -> string, names: seq<string>, counts: seq<nat>, i: nat)
    requires i < |names| == |counts| <= |paths| && AllAssigned(AllCandidates(paths), key, names, counts, |names|)
    ensures IsEntryName(names[i])
    ensures names[i] == FilenameFromPath(paths[i]) <==> key(FilenameFromPath(paths[i])) !in UsedBy(key, names, i)
  {
    var candidates := AllCandidates(paths)[i];
    EachAssigned(AllCandidates(paths), key, names, counts, |names|, i);
    SuffixedIsEntryName(FilenameFromPath(paths[i]), counts[i]);
    assert candidates(0) == FilenameFromPath(paths[i]);
    assert counts[i] > 0 ==> key(candidates(0)) in UsedBy(key, names, i);
  }
}
