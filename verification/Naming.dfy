/** Free names for received files and directories, and what a fresh receive can do to the
    files that are already there (src/transfers/files/_fileobject.py:160-187;
    src/transfers/files/receiver.py:78-107, 219-251; src/transfers/files/directory.py:23-51). */
module Naming {
  import opened Octets
  import Peers

  // ---- Names with a counter ---------------------------------------------------------

  function Digit(d: nat): (c: char)
    requires d < 10
    ensures c == '0' + d as char
  {
    '0' + d as char
  }

  function Decimal(n: nat): (s: string)
    ensures s != [] && '.' !in s
  {
    if n < 10 then [Digit(n)] else Decimal(n / 10) + [Digit(n % 10)]
  }

  lemma {:induction false} DecimalInjective(m: nat, n: nat)
    requires Decimal(m) == Decimal(n)
    ensures m == n
  {
    var s := Decimal(m);
    assert s[|s| - 1] == Digit(m % 10) == Digit(n % 10);
    assert m % 10 == n % 10;
    if m >= 10 && n >= 10 {
      assert Decimal(m / 10) == s[..|s| - 1] == Decimal(n / 10);
      DecimalInjective(m / 10, n / 10);
    }
  }

  function Value(s: string): int {
    if s == "" then 0 else 10 * Value(s[..|s| - 1]) + (s[|s| - 1] as int - '0' as int)
  }

  /** Decimal notation: digits only, no leading zero, and the number is read back. */
  lemma {:induction false} DecimalNotation(n: nat)
    ensures Value(Decimal(n)) == n
    ensures forall c :: c in Decimal(n) ==> '0' <= c <= '9'
    ensures n > 0 ==> Decimal(n)[0] != '0'
  {
    if n >= 10 {
      DecimalNotation(n / 10);
      assert Decimal(n)[..|Decimal(n)| - 1] == Decimal(n / 10);
    } else {
      assert Value(Decimal(n)[..0]) == 0;
    }
  }

  /** The k-th name a search tries: the name itself, then the numbered ones. */
  function Candidate(name: string, front: string, back: string, k: nat): string {
    if k == 0 then name else front + Decimal(k) + back
  }

  /** No name is tried twice. */
  lemma CandidatesDiffer(name: string, front: string, back: string, j: nat, k: nat)
    requires j < k && |front| + |back| >= |name|
    ensures Candidate(name, front, back, j) != Candidate(name, front, back, k)
  {
    var a, b := Candidate(name, front, back, j), Candidate(name, front, back, k);
    if j > 0 && a == b {
      assert Decimal(j) == a[|front|..|a| - |back|] == b[|front|..|b| - |back|] == Decimal(k);
      DecimalInjective(j, k);
    }
  }

  function Tried(name: string, front: string, back: string, k: nat): set<string> {
    set j | 0 <= j < k :: Candidate(name, front, back, j)
  }

  /** So a search fails at most once for each name there is. */
  lemma {:induction false} TriedCard(name: string, front: string, back: string, k: nat)
    requires |front| + |back| >= |name|
    ensures |Tried(name, front, back, k)| == k
  {
    if k > 0 {
      var before, c := Tried(name, front, back, k - 1), Candidate(name, front, back, k - 1);
      TriedCard(name, front, back, k - 1);
      forall j | 0 <= j < k - 1 ensures Candidate(name, front, back, j) != c {
        CandidatesDiffer(name, front, back, j, k - 1);
      }
      assert Tried(name, front, back, k) == before + {c};
    }
  }

  predicate AllTaken(existing: set<string>, name: string, front: string, back: string, k: nat) {
    forall j :: 0 <= j < k ==> Candidate(name, front, back, j) in existing
  }

  lemma FailuresAreBounded(existing: set<string>, name: string, front: string, back: string, k: nat)
    requires |front| + |back| >= |name| && AllTaken(existing, name, front, back, k)
    ensures k <= |existing|
  {
    TriedCard(name, front, back, k);
    Peers.SubsetCard(Tried(name, front, back, k), existing);
  }

  // ---- pathlib ----------------------------------------------------------------------

  /** Where the last dot is, or -1. */
  function LastDot(name: string): (i: int)
    ensures -1 <= i < |name|
    ensures i >= 0 ==> name[i] == '.'
    ensures forall k :: i < k < |name| ==> name[k] != '.'
  {
    if name == [] then -1
    else if name[|name| - 1] == '.' then |name| - 1
    else LastDot(name[..|name| - 1])
  }

  function Suffix(name: string): string {
    var i := LastDot(name);
    if 0 < i < |name| - 1 then name[i..] else ""
  }

  function Stem(name: string): (s: string)
    ensures s + Suffix(name) == name
  {
    name[..|name| - |Suffix(name)|]
  }

  function Front(name: string): string { Stem(name) + " (" }
  function Back(name: string): string { ")" + Suffix(name) }

  lemma LastDotIs(s: string, i: int)
    requires 0 <= i < |s| && s[i] == '.' && forall k :: i < k < |s| ==> s[k] != '.'
    ensures LastDot(s) == i
  {
  }

  /** The extension is what follows the last dot, with the dot, if there is something in front
      of that dot and something behind it; otherwise there is none. */
  lemma SuffixIs(front: string, ext: string, name: string)
    requires '.' !in ext
    ensures front != "" && ext != "" ==> Suffix(front + "." + ext) == "." + ext && Stem(front + "." + ext) == front
    ensures front == "" || ext == "" ==> Suffix(front + "." + ext) == ""
    ensures '.' !in name ==> Suffix(name) == "" && Stem(name) == name
  {
    var s := front + "." + ext;
    assert s[|front|] == '.';
    forall k | |front| < k < |s| ensures s[k] != '.' { assert s[k] == ext[k - |front| - 1]; }
    LastDotIs(s, |front|);
    assert s[|front|..] == "." + ext && s[..|front|] == front;
  }

  /** The names that are tried for a file. */
  lemma NumberedName(name: string, k: nat)
    ensures Candidate(name, Front(name), Back(name), 0) == name
    ensures k > 0 ==> Candidate(name, Front(name), Back(name), k) == Stem(name) + " (" + Decimal(k) + ")" + Suffix(name)
  {
  }

  /** A numbered name keeps its extension, unless the name ends in a dot: then the number
      itself is read as one. */
  lemma NumberedNameKeepsSuffix(name: string, k: nat)
    requires k > 0
    ensures Suffix(Candidate(name, Front(name), Back(name), k)) == Suffix(name)
       <==> !(|name| > 1 && name[|name| - 1] == '.')
  {
    var number := " (" + Decimal(k) + ")";
    assert '.' !in number;
    Regroup(Stem(name), Decimal(k), Suffix(name));
    if 0 < LastDot(name) < |name| - 1 {
      InsertBeforeSuffix(name, number);
    } else {
      assert Suffix(name) == "" && Stem(name) + number + "" == name + number;
      AppendNumber(name, number);
    }
  }

  lemma Regroup(a: string, b: string, c: string)
    ensures a + " (" + b + (")" + c) == a + (" (" + b + ")") + c
  {
  }

  lemma InsertBeforeSuffix(name: string, number: string)
    requires 0 < LastDot(name) < |name| - 1
    ensures Suffix(Stem(name) + number + Suffix(name)) == Suffix(name)
  {
    var c, i := Stem(name) + number + Suffix(name), LastDot(name);
    assert c[i + |number|..] == Suffix(name) == name[i..];
    assert forall n :: i + |number| <= n < |c| ==> c[n] == name[i..][n - i - |number|];
    LastDotIs(c, i + |number|);
  }

  lemma AppendNumber(name: string, number: string)
    requires '.' !in number && |number| > 0 && !(0 < LastDot(name) < |name| - 1)
    ensures Suffix(name + number) == "" <==> !(|name| > 1 && name[|name| - 1] == '.')
  {
    var c, i := name + number, LastDot(name);
    assert forall n :: |name| <= n < |c| ==> c[n] in number;
    if i >= 0 {
      LastDotIs(c, i);
    } else {
      assert forall n :: 0 <= n < |name| ==> c[n] == name[n];
      assert LastDot(c) == -1;
    }
  }

  /** The first free name from the k-th try on. */
  function FirstFreeFrom(existing: set<string>, name: string, front: string, back: string, k: nat): (free: string)
    requires |front| + |back| >= |name| && AllTaken(existing, name, front, back, k)
    ensures free !in existing
    decreases |existing| + 1 - k
  {
    FailuresAreBounded(existing, name, front, back, k);
    var c := Candidate(name, front, back, k);
    if c in existing
    then
      assert AllTaken(existing, name, front, back, k + 1);
      FirstFreeFrom(existing, name, front, back, k + 1)
    else c
  }

  function FirstFree(existing: set<string>, name: string): string {
    FirstFreeFrom(existing, name, Front(name), Back(name), 0)
  }

  /** The search has one result: the first candidate that is free. */
  lemma {:induction false} FirstFreeIs(existing: set<string>, name: string, front: string, back: string, k: nat, n: nat)
    requires k <= n && |front| + |back| >= |name|
    requires AllTaken(existing, name, front, back, n) && Candidate(name, front, back, n) !in existing
    ensures FirstFreeFrom(existing, name, front, back, k) == Candidate(name, front, back, n)
    decreases n - k
  {
    if k < n { FirstFreeIs(existing, name, front, back, k + 1, n); }
  }

  // ---- The two searches -------------------------------------------------------------

  /** `validatename`: the first free name, after at most one probe per existing entry and
      one more. */
  method ValidateName(name: string, existing: set<string>) returns (free: string, probes: nat)
    ensures free !in existing
    ensures 1 <= probes <= |existing| + 1
    ensures probes == 1 ==> free == name
    ensures probes > 1 ==> name in existing && free == Stem(name) + " (" + Decimal(probes - 1) + ")" + Suffix(name)
    ensures forall k :: 0 < k < probes - 1 ==> Stem(name) + " (" + Decimal(k) + ")" + Suffix(name) in existing
    ensures free == FirstFree(existing, name)
  {
    var base, ext, counter := Stem(name), Suffix(name), 1;
    free, probes := name, 1;
    FailuresAreBounded(existing, name, Front(name), Back(name), 0);
    while free in existing
      invariant 1 <= counter == probes <= |existing| + 1
      invariant free == Candidate(name, Front(name), Back(name), counter - 1)
      invariant AllTaken(existing, name, Front(name), Back(name), counter - 1)
      decreases |existing| + 1 - probes
    {
      FailuresAreBounded(existing, name, Front(name), Back(name), counter);
      free := base + " (" + Decimal(counter) + ")" + ext;
      assert free == Candidate(name, Front(name), Back(name), counter);
      counter, probes := counter + 1, probes + 1;
    }
    FirstFreeIs(existing, name, Front(name), Back(name), 0, probes - 1);
    if probes > 1 { assert Candidate(name, Front(name), Back(name), 0) in existing; }
    forall k | 0 < k < probes - 1 ensures Stem(name) + " (" + Decimal(k) + ")" + Suffix(name) in existing {
      assert Candidate(name, Front(name), Back(name), k) in existing;
      NumberedName(name, k);
    }
    NumberedName(name, probes - 1);
  }

  /** `rename_directory_with_increment`: the same without an extension. */
  method RenameDirectoryWithIncrement(base: string, existing: set<string>) returns (free: string, probes: nat)
    ensures free !in existing
    ensures 1 <= probes <= |existing| + 1
    ensures probes == 1 ==> free == base
    ensures probes > 1 ==> base in existing && free == base + "(" + Decimal(probes - 1) + ")"
    ensures forall k :: 0 < k < probes - 1 ==> base + "(" + Decimal(k) + ")" in existing
  {
    var counter := 1;
    free, probes := base, 1;
    while free in existing
      invariant 1 <= counter == probes <= |existing| + 1
      invariant free == Candidate(base, base + "(", ")", counter - 1)
      invariant AllTaken(existing, base, base + "(", ")", counter - 1)
      decreases |existing| + 1 - probes
    {
      FailuresAreBounded(existing, base, base + "(", ")", counter);
      free := base + "(" + Decimal(counter) + ")";
      counter, probes := counter + 1, probes + 1;
    }
    if probes > 1 { assert Candidate(base, base + "(", ")", 0) in existing; }
    forall k | 0 < k < probes - 1 ensures base + "(" + Decimal(k) + ")" in existing {
      assert Candidate(base, base + "(", ")", k) in existing;
    }
  }

  // ---- Fresh receives ---------------------------------------------------------------

  datatype Path = Path(folder: string, name: string)

  /** A fresh file (`seeked` 0) and the part of its contents that arrives. */
  datatype Incoming = Incoming(path: Path, size: nat, data: Bytes)

  datatype Opened = Opened | FileExistsError

  ghost predicate Untouched(before: map<Path, Bytes>, after: map<Path, Bytes>) {
    forall p :: p in before ==> p in after && after[p] == before[p]
  }

  /** Every file that is not empty has got a path of its own, which is new, with its
      contents. */
  ghost predicate Landed(start: map<Path, Bytes>, files: seq<Incoming>, at: seq<Path>, disk: map<Path, Bytes>) {
    && |at| <= |files|
    && (forall i :: 0 <= i < |at| ==> at[i] in disk)
    && (forall i :: 0 <= i < |at| && files[i].size > 0 ==> at[i] !in start && disk[at[i]] == files[i].data)
    && (forall i, j :: 0 <= i < j < |at| && files[j].size > 0 ==> at[i] != at[j])
  }

  lemma LandedStep(start: map<Path, Bytes>, files: seq<Incoming>, at: seq<Path>, before: map<Path, Bytes>,
                   p: Path, disk: map<Path, Bytes>)
    requires Landed(start, files, at, before) && |at| < |files| && Untouched(start, before) && Untouched(before, disk)
    requires p in disk && (files[|at|].size > 0 ==> p !in before && disk[p] == files[|at|].data)
    ensures Landed(start, files, at + [p], disk)
  {
  }

  class Downloads {
    const root: string
    var disk: map<Path, Bytes>

    constructor (root: string, disk: map<Path, Bytes>)
      ensures this.root == root && this.disk == disk
    {
      this.root, this.disk := root, disk;
    }

    /** The names directly under the download root, which is where `validatename` looks. */
    function NamesInRoot(): (names: set<string>)
      reads this
      ensures forall n :: n in names <==> Path(root, n) in disk
    {
      set p | p in disk && p.folder == root :: p.name
    }

    /** `_recv_file_once` for a fresh file. `meanwhile` is what others create between the
        search for a name and the exclusive open. */
    method ReceiveFresh(f: Incoming, meanwhile: map<Path, Bytes>) returns (r: Opened, at: Path)
      requires meanwhile.Keys !! disk.Keys
      modifies this
      ensures Untouched(old(disk), disk) && (f.size > 0 ==> Untouched(meanwhile, disk))
      ensures f.size > 0 ==> at == Path(f.path.folder, FirstFree(old(NamesInRoot()), f.path.name))
      ensures r.FileExistsError? <==> f.size > 0 && (at in old(disk) || at in meanwhile)
      ensures f.size > 0 && f.path.folder == root ==> at !in old(disk)
      ensures f.size > 0 && r.Opened? ==> at !in old(disk) && disk == (old(disk) + meanwhile)[at := f.data]
      ensures f.size == 0 ==> at == f.path && disk == if at in old(disk) then old(disk) else old(disk)[at := []]
    {
      if f.size == 0 {
        if f.path !in disk { disk := disk[f.path := []]; }
        return Opened, f.path;
      }
      var name, probes := ValidateName(f.path.name, NamesInRoot());
      at := Path(f.path.folder, name);
      disk := disk + meanwhile;
      if at in disk { return FileExistsError, at; }   // mode 'xb'
      disk := disk[at := f.data];
      r := Opened;
    }

    /** Any sequence of fresh files: nothing that was there changes, and every file that is
        not empty gets a path of its own with its contents. */
    method ReceiveAll(files: seq<Incoming>) returns (r: Opened, at: seq<Path>)
      modifies this
      ensures Untouched(old(disk), disk) && |at| <= |files| && (r.Opened? ==> |at| == |files|)
      ensures Landed(old(disk), files, at, disk)
      ensures (forall f :: f in files ==> f.path.folder == root) ==> r.Opened?
    {
      at := [];
      for i := 0 to |files|
        invariant Untouched(old(disk), disk) && |at| == i && Landed(old(disk), files, at, disk)
      {
        ghost var before := disk;
        var result, p := ReceiveFresh(files[i], map[]);
        if result.FileExistsError? { return result, at; }
        LandedStep(old(disk), files, at, before, p, disk);
        at := at + [p];
      }
      r := Opened;
    }
  }
}
