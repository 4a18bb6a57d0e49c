/** Building a bundle: names for pulled files and rewritten references
    (server/crates/dialf/src/bundle.rs). A path is its text; in-tree names are zip names. */
module Bundle {
  import opened Seqs
  import opened ZipPaths

  // ---- decimal numbers -------------------------------------------------------------------------

  function Digit(d: nat): char
    requires d < 10
  {
    "0123456789"[d]
  }

  function Decimal(n: nat): (s: string)
    ensures s != []
  {
    if n < 10 then [Digit(n)] else Decimal(n / 10) + [Digit(n % 10)]
  }

  function DigitValue(c: char): nat {
    if '0' <= c <= '9' then (c as int) - ('0' as int) else 0
  }

  function NumberOf(s: string): nat {
    if s == [] then 0 else 10 * NumberOf(s[..|s| - 1]) + DigitValue(s[|s| - 1])
  }

  lemma {:induction false} DecimalReadsBack(n: nat)
    ensures NumberOf(Decimal(n)) == n
  {
    if n < 10 {
      assert [Digit(n)][..0] == [];
    } else {
      DecimalReadsBack(n / 10);
      assert (Decimal(n / 10) + [Digit(n % 10)])[..|Decimal(n / 10)|] == Decimal(n / 10);
    }
  }

  lemma {:induction false} DecimalIsPlain(n: nat)
    ensures '/' !in Decimal(n) && '.' !in Decimal(n)
  {
    if n >= 10 {
      DecimalIsPlain(n / 10);
    }
  }

  // ---- allocating a name -------------------------------------------------------------------------

  /** The n-th name tried for a file: its own, then 1-, 2-, ... in front of it. */
  function FileNameTried(base: string, n: nat): string {
    if n == 0 then base else Decimal(n) + ['-'] + base
  }

  function Candidate(under: string, base: string, n: nat): string {
    under + ['/'] + FileNameTried(base, n)
  }

  lemma CandidatesDiffer(under: string, base: string, i: nat, j: nat)
    requires Candidate(under, base, i) == Candidate(under, base, j)
    ensures i == j
  {
    var a, b := FileNameTried(base, i), FileNameTried(base, j);
    assert a == Candidate(under, base, i)[|under| + 1..];
    assert b == Candidate(under, base, j)[|under| + 1..];
    if i > 0 && j > 0 {
      assert Decimal(i) == a[..|a| - |base| - 1] && Decimal(j) == b[..|b| - |base| - 1];
      DecimalReadsBack(i);
      DecimalReadsBack(j);
    }
  }

  predicate IsDecimal(s: string) {
    s != [] && (forall i :: 0 <= i < |s| ==> '0' <= s[i] <= '9') && (|s| > 1 ==> s[0] != '0')
  }

  lemma {:induction false} DecimalIsSpelled(n: nat)
    ensures IsDecimal(Decimal(n)) && (n > 0 ==> Decimal(n)[0] != '0')
  {
    if n >= 10 {
      DecimalIsSpelled(n / 10);
    }
  }

  /** The first name is the file's own; the n-th after it has the number n, in decimal, and a dash in front. */
  lemma NamesTried(under: string, base: string, n: nat)
    ensures Candidate(under, base, 0) == under + "/" + base
    ensures n > 0 ==> exists d ::
      IsDecimal(d) && NumberOf(d) == n && Candidate(under, base, n) == under + "/" + d + "-" + base
  {
    if n > 0 {
      var d := Decimal(n);
      DecimalIsSpelled(n);
      DecimalReadsBack(n);
      assert Candidate(under, base, n) == under + "/" + d + "-" + base;
    }
  }

  /** The names tried before the n-th. */
  ghost function Tried(under: string, base: string, n: nat): set<string> {
    if n == 0 then {} else Tried(under, base, n - 1) + {Candidate(under, base, n - 1)}
  }

  lemma {:induction false} NewNameIsUntried(under: string, base: string, n: nat, k: nat)
    requires k <= n
    ensures Candidate(under, base, n) !in Tried(under, base, k)
  {
    if k > 0 {
      NewNameIsUntried(under, base, n, k - 1);
      if Candidate(under, base, n) == Candidate(under, base, k - 1) {
        CandidatesDiffer(under, base, n, k - 1);
      }
    }
  }

  lemma {:induction false} EarlierNamesAreTried(under: string, base: string, n: nat, i: nat)
    requires i < n
    ensures Candidate(under, base, i) in Tried(under, base, n)
  {
    if i < n - 1 {
      EarlierNamesAreTried(under, base, n - 1, i);
    }
  }

  /** Where an entry's content comes from: a file as it is, or a file's job with new references. */
  datatype Src = File(path: string) | Rewritten(path: string, refs: seq<string>)

  /** The last component of a path; `.` is none, and `..` names no file. */
  function FileName(path: string): string { LastName(Segments(path)) }

  function LastName(segs: seq<string>): string {
    if segs == [] || segs[|segs| - 1] == UP then "file"
    else if segs[|segs| - 1] == HERE then LastName(segs[..|segs| - 1])
    else segs[|segs| - 1]
  }

  lemma {:induction false} LastNameIsAName(segs: seq<string>)
    requires forall i :: 0 <= i < |segs| ==> Plain(segs[i])
    ensures Plain(LastName(segs)) && Ordinary(LastName(segs))
  {
    if segs != [] && segs[|segs| - 1] == HERE {
      LastNameIsAName(segs[..|segs| - 1]);
    }
  }

  /** The file name of a path to a file is what comes after its last slash. */
  lemma FileNameIsLast(dir: string, base: string)
    requires Plain(base) && Ordinary(base)
    ensures FileName(dir + ['/'] + base) == base
  {
    SegmentsAcross(dir, base);
    SegmentsOfOne(base);
  }

  /** A zip name in its one spelling, whose segments all name something. */
  predicate NameOk(name: string) { AllOrdinary(Segments(name)) && Join(Segments(name)) == name }

  // ---- paths on disk -----------------------------------------------------------------------------

  /** Two canonical paths that lead to one file. */
  predicate SamePath(a: string, b: string) { Segments(a) == Segments(b) }

  predicate InFolder(dir: string, path: string) { Segments(dir) <= Segments(path) }

  /** The name a path inside the folder has in the bundle. */
  function ZipName(dir: string, path: string): string
    requires InFolder(dir, path)
  {
    Join(Segments(path)[|Segments(dir)|..])
  }

  lemma ZipNameIsRest(dir: string, path: string)
    requires InFolder(dir, path)
    ensures Segments(path) == Segments(dir) + Segments(ZipName(dir, path))
    ensures AllOrdinary(Segments(path)) ==> NameOk(ZipName(dir, path))
  {
    SegmentsArePlain(path);
    SegmentsOfJoin(Segments(path)[|Segments(dir)|..]);
  }

  /** The files of the folder: each under the name that leads to it from there. */
  ghost predicate TreeOk(dir: string, inTree: map<string, string>) {
    forall n :: n in inTree ==> NameOk(n) && Segments(inTree[n]) == Segments(dir) + Segments(n)
  }

  lemma CandidateIsOk(under: string, path: string, n: nat)
    requires Plain(under) && Ordinary(under)
    ensures NameOk(Candidate(under, FileName(path), n))
  {
    var base := FileName(path);
    SegmentsArePlain(path);
    LastNameIsAName(Segments(path));
    DecimalIsPlain(n);
    var file := FileNameTried(base, n);
    assert n > 0 ==> file[0] == Decimal(n)[0] && '.' !in Decimal(n);
    SegmentsOfJoin([under, file]);
    assert Join([under, file]) == Candidate(under, base, n) by {
      assert [under, file][1..] == [file];
    }
  }

  /** The first name tried that is not taken. */
  ghost predicate FirstFree(name: string, taken: set<string>, under: string, base: string) {
    exists n: nat :: FreeAt(name, taken, under, base, n)
  }

  ghost predicate FreeAt(name: string, taken: set<string>, under: string, base: string, n: nat) {
    name == Candidate(under, base, n) && name !in taken && Tried(under, base, n) <= taken
  }

  /** A first free name comes after names that are all taken, and there is one of them only. */
  lemma FirstFreeIsUnique(name: string, other: string, taken: set<string>, under: string, base: string)
    requires FirstFree(name, taken, under, base) && FirstFree(other, taken, under, base)
    ensures name == other
  {
    var n: nat :| FreeAt(name, taken, under, base, n);
    var m: nat :| FreeAt(other, taken, under, base, m);
    if n < m {
      EarlierNamesAreTried(under, base, m, n);
    } else if m < n {
      EarlierNamesAreTried(under, base, n, m);
    }
  }

  /** Only finitely many names are taken and no name is tried twice, so the search ends. */
  method FreeName<T>(entries: map<string, T>, under: string, base: string) returns (name: string)
    ensures FirstFree(name, entries.Keys, under, base)
  {
    name := Candidate(under, base, 0);
    var n := 1;
    while name in entries
      invariant n >= 1 && name == Candidate(under, base, n - 1)
      invariant Tried(under, base, n - 1) <= entries.Keys
      decreases entries.Keys - Tried(under, base, n - 1)
    {
      OneMoreTried(entries.Keys, under, base, n - 1);
      name := Candidate(under, base, n);
      n := n + 1;
    }
    assert FreeAt(name, entries.Keys, under, base, n - 1);
  }

  lemma OneMoreTried(taken: set<string>, under: string, base: string, n: nat)
    requires Tried(under, base, n) <= taken && Candidate(under, base, n) in taken
    ensures Tried(under, base, n + 1) <= taken
    ensures taken - Tried(under, base, n + 1) < taken - Tried(under, base, n)
  {
    NewNameIsUntried(under, base, n, n);
    assert Candidate(under, base, n) in taken - Tried(under, base, n);
    assert Candidate(under, base, n) !in taken - Tried(under, base, n + 1);
  }

  class Export {
    const dir: string
    var entries: map<string, Src>
    var pulled: map<string, string>

    /** Every in-tree name still stands for its own file, and every pulled file, all of them outside the
        folder, has one name of its own; nothing else is in the bundle. */
    ghost predicate Valid(inTree: map<string, string>)
      reads this
    {
      && TreeOk(dir, inTree)
      && (forall n :: n in inTree ==> n in entries && entries[n].path == inTree[n])
      && (forall p :: p in pulled ==> !InFolder(dir, p) && NameOk(pulled[p]))
      && (forall p :: p in pulled ==> pulled[p] in entries && entries[pulled[p]].path == p && pulled[p] !in inTree)
      && (forall n :: n in entries ==> n in inTree || (entries[n].path in pulled && pulled[entries[n].path] == n))
    }

    /** Reserve the in-tree names. */
    constructor (dir: string, inTree: map<string, string>)
      requires TreeOk(dir, inTree)
      ensures Valid(inTree) && pulled == map[] && this.dir == dir
      ensures forall n :: n in inTree ==> entries[n] == File(inTree[n])
    {
      this.dir := dir;
      entries, pulled := map n | n in inTree :: File(inTree[n]), map[];
    }

    /** Add an out-of-tree file. A file that has a name keeps it; a new one gets the first name tried
        that no entry has, and the search always ends. */
    method PullExternal(src: string, under: string, ghost inTree: map<string, string>) returns (name: string)
      requires Valid(inTree) && !InFolder(dir, src) && Plain(under) && Ordinary(under)
      modifies this`entries, this`pulled
      ensures Valid(inTree) && src in pulled && pulled[src] == name
      ensures src in old(pulled) ==> entries == old(entries) && pulled == old(pulled)
      ensures src !in old(pulled) ==>
        && name !in old(entries) && entries == old(entries)[name := File(src)] && pulled == old(pulled)[src := name]
        && FirstFree(name, old(entries).Keys, under, FileName(src))
    {
      if src in pulled {
        return pulled[src];
      }
      name := FreeName(entries, under, FileName(src));
      ghost var n: nat :| FreeAt(name, entries.Keys, under, FileName(src), n);
      CandidateIsOk(under, src, n);
      entries := entries[name := File(src)];
      pulled := pulled[src := name];
    }

    /** Replace the content of an entry by its own file's rewritten job. */
    method Rewrite(name: string, refs: seq<string>, ghost inTree: map<string, string>)
      requires Valid(inTree) && name in entries
      modifies this`entries
      ensures Valid(inTree)
      ensures entries == old(entries)[name := Rewritten(old(entries)[name].path, refs)]
    {
      entries := entries[name := Rewritten(entries[name].path, refs)];
    }
  }

  /** Distinct files have distinct names. */
  lemma NamesAreDistinct(e: Export, inTree: map<string, string>, p: string, q: string)
    requires e.Valid(inTree) && p in e.pulled && q in e.pulled && e.pulled[p] == e.pulled[q]
    ensures p == q
  {
    assert e.entries[e.pulled[p]].path == p;
  }

  lemma NamesDiffer(e: Export, inTree: map<string, string>, path: string)
    requires e.Valid(inTree) && path in e.pulled
    ensures forall p :: p in e.pulled && p != path ==> e.pulled[p] != e.pulled[path]
  {
    forall p | p in e.pulled && e.pulled[p] == e.pulled[path] ensures p == path {
      NamesAreDistinct(e, inTree, p, path);
    }
  }

  // ---- rewriting references ----------------------------------------------------------------------

  /** What an `audio.play` reference of a job turns out to be on disk: missing; a file inside the folder,
      bundled or on an excluded or hidden path; or one outside. `target` is its canonical path. */
  datatype Ref =
    | Missing(text: string)
    | Inside(text: string, target: string, name: string, bundled: bool)
    | Outside(text: string, target: string)

  function Found(dir: string, text: string, target: Option<string>, bundled: bool): Ref {
    if target.None? then Missing(text)
    else if InFolder(dir, target.value) then Inside(text, target.value, ZipName(dir, target.value), bundled)
    else Outside(text, target.value)
  }

  /** A reference as it is found: its target is canonical, and its kind says where that is. */
  ghost predicate FoundIn(dir: string, ref: Ref) {
    match ref
    case Missing(_) => true
    case Inside(_, target, name, _) =>
      AllOrdinary(Segments(target)) && InFolder(dir, target) && name == ZipName(dir, target)
    case Outside(_, target) => AllOrdinary(Segments(target)) && !InFolder(dir, target)
  }

  ghost predicate AllFound(dir: string, refs: seq<Ref>) {
    forall i :: 0 <= i < |refs| ==> FoundIn(dir, refs[i])
  }

  predicate IsRelative(text: string) { text == [] || text[0] != '/' }

  /** The directory part of a zip name. */
  function ParentOf(name: string): string {
    if name == [] then []
    else if name[|name| - 1] == '/' then name[..|name| - 1]
    else ParentOf(name[..|name| - 1])
  }

  /** The directory part is what comes before the last slash, and nothing when there is none. */
  lemma {:induction false} ParentOfJoined(dir: string, base: string)
    requires '/' !in base
    ensures ParentOf(dir + ['/'] + base) == dir && ParentOf(base) == []
  {
    var name := dir + ['/'] + base;
    if base == [] {
      assert name[..|name| - 1] == dir;
    } else {
      ParentOfJoined(dir, base[..|base| - 1]);
      assert name[..|name| - 1] == dir + ['/'] + base[..|base| - 1];
    }
  }

  /** The reference does not stay as it is: its file is outside the folder; or inside, and the job has moved or
      names the file by an absolute path. An in-tree script's reference to an unbundled file stays. */
  ghost predicate Changes(ref: Ref, moved: bool) {
    ref.Outside? || (ref.Inside? && (moved || (ref.bundled && ref.text != [] && ref.text[0] == '/')))
  }

  ghost predicate AllKept(refs: seq<Ref>, moved: bool) {
    forall i :: 0 <= i < |refs| ==> !Changes(refs[i], moved)
  }

  ghost predicate RefDone(ref: Ref, moved: bool, job: string, now: string, pulled: map<string, string>) {
    if !Changes(ref, moved) then now == ref.text
    else if ref.Outside? then ref.target in pulled && now == RelativeZipPath(ParentOf(job), pulled[ref.target])
    else now == RelativeZipPath(ParentOf(job), ref.name)
  }

  ghost predicate RefsDone(refs: seq<Ref>, moved: bool, job: string, now: seq<string>, pulled: map<string, string>) {
    |now| == |refs| && forall i :: 0 <= i < |refs| ==> RefDone(refs[i], moved, job, now[i], pulled)
  }

  /** Pulled files keep their names. */
  ghost predicate Extends(more: map<string, string>, pulled: map<string, string>) {
    forall p :: p in pulled ==> p in more && more[p] == pulled[p]
  }

  /** Entries that were there are as they were. */
  ghost predicate Keeps(more: map<string, Src>, entries: map<string, Src>) {
    forall n :: n in entries ==> n in more && more[n] == entries[n]
  }

  /** Files pulled since `before` are in the bundle as they are. */
  ghost predicate NewAreFiles(entries: map<string, Src>, pulled: map<string, string>, before: map<string, string>) {
    forall p :: p in pulled && p !in before ==> pulled[p] in entries && entries[pulled[p]] == File(p)
  }

  /** The files outside the folder that these references are to. */
  ghost function TargetsOf(refs: seq<Ref>): set<string> {
    set k | 0 <= k < |refs| && refs[k].Outside? :: refs[k].target
  }

  /** The file's own name, or that with a number, in this directory of the bundle. */
  ghost predicate NamedUnder(name: string, under: string, path: string) {
    exists n: nat :: name == Candidate(under, FileName(path), n)
  }

  /** Files pulled since `before` are samples: some reference is to them. */
  ghost predicate NewAreSamples(pulled: map<string, string>, before: map<string, string>, refs: seq<Ref>) {
    forall p :: p in pulled && p !in before ==> p in TargetsOf(refs) && NamedUnder(pulled[p], "samples", p)
  }

  lemma FreeIsNamed(name: string, taken: set<string>, under: string, path: string)
    requires FirstFree(name, taken, under, FileName(path))
    ensures NamedUnder(name, under, path)
  {
    var n: nat :| FreeAt(name, taken, under, FileName(path), n);
  }

  method NewText(e: Export, job: string, ref: Ref, moved: bool, ghost inTree: map<string, string>)
      returns (now: string, changed: bool)
    requires e.Valid(inTree) && FoundIn(e.dir, ref)
    modifies e
    ensures e.Valid(inTree) && Extends(e.pulled, old(e.pulled)) && Keeps(e.entries, old(e.entries))
    ensures NewAreFiles(e.entries, e.pulled, old(e.pulled))
    ensures NewAreSamples(e.pulled, old(e.pulled), [ref])
    ensures RefDone(ref, moved, job, now, e.pulled) && (changed <==> Changes(ref, moved))
  {
    if ref.Missing? {
      return ref.text, false;
    }
    if !moved && ref.Inside? && (!ref.bundled || IsRelative(ref.text)) {
      return ref.text, false;
    }
    var target;
    if ref.Outside? {
      ghost var entries, pulled := e.entries, e.pulled;
      target := e.PullExternal(ref.target, "samples", inTree);
      assert [ref][0] == ref;
      if ref.target !in pulled {
        FreeIsNamed(target, entries.Keys, "samples", ref.target);
      }
    } else {
      target := ref.name;
    }
    now, changed := RelativeZipPath(ParentOf(job), target), true;
  }

  lemma RefsDoneSnoc(refs: seq<Ref>, i: nat, moved: bool, job: string, now: seq<string>, text: string,
                     pulled: map<string, string>, more: map<string, string>)
    requires i < |refs| && RefsDone(refs[..i], moved, job, now, pulled) && Extends(more, pulled)
    requires RefDone(refs[i], moved, job, text, more)
    ensures RefsDone(refs[..i + 1], moved, job, now + [text], more)
  {
    forall k | 0 <= k < i + 1
      ensures RefDone(refs[..i + 1][k], moved, job, (now + [text])[k], more)
    {
      if k < i {
        assert RefDone(refs[..i][k], moved, job, now[k], pulled);
      }
    }
  }

  lemma SamplesSnoc(refs: seq<Ref>, i: nat, before: map<string, string>, pulled: map<string, string>,
                    more: map<string, string>)
    requires i < |refs| && Extends(more, pulled)
    requires NewAreSamples(pulled, before, refs) && NewAreSamples(more, pulled, [refs[i]])
    ensures NewAreSamples(more, before, refs)
  {
  }

  lemma AllKeptSnoc(refs: seq<Ref>, i: nat, moved: bool)
    requires i < |refs|
    ensures AllKept(refs[..i + 1], moved) <==> AllKept(refs[..i], moved) && !Changes(refs[i], moved)
  {
    if AllKept(refs[..i + 1], moved) {
      assert refs[..i + 1][i] == refs[i];
      forall k | 0 <= k < i ensures !Changes(refs[..i][k], moved) {
        assert refs[..i + 1][k] == refs[..i][k];
      }
    }
  }

  method Normalize(e: Export, job: string, refs: seq<Ref>, moved: bool, ghost inTree: map<string, string>)
      returns (now: seq<string>, rewritten: bool)
    requires e.Valid(inTree) && AllFound(e.dir, refs)
    modifies e
    ensures e.Valid(inTree) && Extends(e.pulled, old(e.pulled)) && Keeps(e.entries, old(e.entries))
    ensures NewAreFiles(e.entries, e.pulled, old(e.pulled)) && NewAreSamples(e.pulled, old(e.pulled), refs)
    ensures RefsDone(refs, moved, job, now, e.pulled)
    ensures rewritten <==> !AllKept(refs, moved)
  {
    now, rewritten := [], false;
    for i := 0 to |refs|
      invariant e.Valid(inTree) && Extends(e.pulled, old(e.pulled)) && Keeps(e.entries, old(e.entries))
      invariant NewAreFiles(e.entries, e.pulled, old(e.pulled)) && NewAreSamples(e.pulled, old(e.pulled), refs)
      invariant RefsDone(refs[..i], moved, job, now, e.pulled)
      invariant rewritten <==> !AllKept(refs[..i], moved)
    {
      ghost var before := e.pulled;
      var text, changed := NewText(e, job, refs[i], moved, inTree);
      RefsDoneSnoc(refs, i, moved, job, now, text, before, e.pulled);
      SamplesSnoc(refs, i, old(e.pulled), before, e.pulled);
      AllKeptSnoc(refs, i, moved);
      now := now + [text];
      rewritten := rewritten || changed;
    }
    assert refs[..|refs|] == refs;
  }

  // ---- where references lead ---------------------------------------------------------------------

  /** Followed from its job's place in the bundle, the text leads to an entry that is this file's. */
  ghost predicate Lands(entries: map<string, Src>, job: string, text: string, target: string) {
    match Resolve(ParentOf(job), text)
    case None => false
    case Some(segs) => Join(segs) in entries && SamePath(entries[Join(segs)].path, target)
  }

  /** The only entry a file of the folder can have is the one under its own name. */
  lemma OwnEntry(e: Export, inTree: map<string, string>, target: string)
    requires e.Valid(inTree) && InFolder(e.dir, target)
    ensures var name := ZipName(e.dir, target);
      (name in e.entries && SamePath(e.entries[name].path, target)) <==> name in inTree
  {
    ZipNameIsRest(e.dir, target);
    var name := ZipName(e.dir, target);
    if name in e.entries && name !in inTree {
      assert e.entries[name].path in e.pulled && !InFolder(e.dir, e.entries[name].path);
    }
  }

  /** A rewritten reference leads to the entry of its own file exactly when that file is outside the
      folder, or is one of the folder's bundled files. The other kind is left over by a job that was
      pulled in and refers to an excluded or hidden file of the folder. */
  lemma RefLands(e: Export, inTree: map<string, string>, ref: Ref, moved: bool, job: string, now: string)
    requires e.Valid(inTree) && FoundIn(e.dir, ref) && RefDone(ref, moved, job, now, e.pulled) && Changes(ref, moved)
    ensures Lands(e.entries, job, now, ref.target) <==> ref.Outside? || ref.name in inTree
  {
    if ref.Outside? {
      RelativePathLands(ParentOf(job), e.pulled[ref.target]);
    } else {
      ZipNameIsRest(e.dir, ref.target);
      RelativePathLands(ParentOf(job), ref.name);
      OwnEntry(e, inTree, ref.target);
    }
  }

  /** Where a path leads on disk when no link is in the way; above the root there is the root. */
  function DiskWalk(dir: seq<string>, parts: seq<string>): seq<string>
    decreases |parts|
  {
    if parts == [] then dir
    else if parts[0] == UP then DiskWalk(if dir == [] then [] else dir[..|dir| - 1], parts[1..])
    else if parts[0] == HERE then DiskWalk(dir, parts[1..])
    else DiskWalk(dir + [parts[0]], parts[1..])
  }

  /** Where a reference of an in-tree script leads on disk. */
  function OnDisk(dir: string, script: string, text: string): seq<string> {
    DiskWalk(Segments(dir) + Segments(ParentOf(script)), Segments(text))
  }

  /** From `depth` directories down, the path never climbs above where that count began. */
  predicate NeverAbove(depth: nat, parts: seq<string>)
    decreases |parts|
  {
    if parts == [] then true
    else if parts[0] == UP then depth > 0 && NeverAbove(depth - 1, parts[1..])
    else if parts[0] == HERE then NeverAbove(depth, parts[1..])
    else NeverAbove(depth + 1, parts[1..])
  }

  lemma {:induction false} WalkInside(root: seq<string>, dir: seq<string>, parts: seq<string>)
    ensures Walk(dir, parts).Some? <==> NeverAbove(|dir|, parts)
    ensures Walk(dir, parts).Some? ==> DiskWalk(root + dir, parts) == root + Walk(dir, parts).value
    decreases |parts|
  {
    if parts == [] {
    } else if parts[0] == UP {
      if dir != [] {
        WalkInside(root, dir[..|dir| - 1], parts[1..]);
        assert (root + dir)[..|root + dir| - 1] == root + dir[..|dir| - 1];
      }
    } else if parts[0] == HERE {
      WalkInside(root, dir, parts[1..]);
    } else {
      WalkInside(root, dir + [parts[0]], parts[1..]);
      assert root + dir + [parts[0]] == root + (dir + [parts[0]]);
    }
  }

  /** A relative reference that is kept still leads to its own file exactly when that file is bundled and
      the reference never climbs above the folder on its way: inside the bundle there is nothing above. */
  lemma KeptRefLands(e: Export, inTree: map<string, string>, ref: Ref, job: string)
    requires e.Valid(inTree) && FoundIn(e.dir, ref) && ref.Inside?
    requires OnDisk(e.dir, job, ref.text) == Segments(ref.target)
    ensures Lands(e.entries, job, ref.text, ref.target) <==>
            ref.name in inTree && NeverAbove(|Segments(ParentOf(job))|, Segments(ref.text))
  {
    WalkInside(Segments(e.dir), Segments(ParentOf(job)), Segments(ref.text));
    ZipNameIsRest(e.dir, ref.target);
    OwnEntry(e, inTree, ref.target);
  }

  // Both conditions are needed: files of any names show it.

  /** The absolute path through these segments. */
  function Abs(parts: seq<string>): string { ['/'] + Join(parts) }

  lemma AbsSegments(parts: seq<string>)
    requires forall i :: 0 <= i < |parts| ==> Plain(parts[i])
    ensures Segments(Abs(parts)) == parts
  {
    SegmentsOfJoin(parts);
    assert (['/'] + Join(parts))[1..] == Join(parts);
    assert ([[]] + Split(Join(parts)))[1..] == Split(Join(parts));
  }

  predicate Name(s: string) { Plain(s) && Ordinary(s) }

  /** `../<folder>/<file>` from a script at the top of the folder is fine on disk and kept as it is, and leads
      nowhere in the bundle. */
  lemma ClimbingRefIsLost(e: Export, inTree: map<string, string>, home: string, folder: string, file: string,
                          script: string)
    requires e.Valid(inTree) && Name(home) && Name(folder) && Name(file) && '/' !in script
    requires e.dir == Abs([home, folder])
    ensures var text := Join([UP, folder, file]); var target := Abs([home, folder, file]);
      var ref := Found(e.dir, text, Some(target), true);
      && OnDisk(e.dir, script, text) == Segments(target)
      && FoundIn(e.dir, ref) && !Changes(ref, false) && !Lands(e.entries, script, text, target)
  {
    var text, target := Join([UP, folder, file]), Abs([home, folder, file]);
    SegmentsOfJoin([UP, folder, file]);
    AbsSegments([home, folder]);
    AbsSegments([home, folder, file]);
    ParentOfJoined([], script);
    assert [home, folder, file][..2] == [home, folder];
    ClimbAndReturn(home, folder, file);
    assert text[0] == '.';
  }

  lemma ClimbAndReturn(home: string, folder: string, file: string)
    requires Name(home) && Name(folder) && Name(file)
    ensures DiskWalk([home, folder] + [], [UP, folder, file]) == [home, folder, file]
    ensures Walk([], [UP, folder, file]) == None
  {
    var parts := [UP, folder, file];
    assert parts[0] == UP && parts[1..] == [folder, file] && [folder, file][1..] == [file] && [file][1..] == [];
    assert [home, folder] + [] == [home, folder] && [home, folder][..1] == [home];
    assert DiskWalk([home, folder], parts) == DiskWalk([home], [folder, file]);
    assert DiskWalk([home], [folder, file]) == DiskWalk([home] + [folder], [file]);
    assert DiskWalk([home] + [folder], [file]) == DiskWalk([home] + [folder] + [file], []);
    assert [home] + [folder] + [file] == [home, folder, file];
  }

  /** A pulled-in job that refers to an unbundled `samples` file of the folder, while a file of the same name
      from elsewhere has been pulled in: the rewritten reference leads to that other file. */
  method OtherFileInItsPlace(home: string, folder: string, away: string, file: string) returns (e: Export, now: string)
    requires Name(home) && Name(folder) && Name(away) && Name(file) && home != away
    ensures var mine, other := Abs([home, folder, "samples", file]), Abs([away, file]);
      var ref := Found(e.dir, mine, Some(mine), false);
      && fresh(e) && e.Valid(map[]) && FoundIn(e.dir, ref) && Changes(ref, true)
      && RefDone(ref, true, "scripts/job.yaml", now, e.pulled)
      && !Lands(e.entries, "scripts/job.yaml", now, mine) && Lands(e.entries, "scripts/job.yaml", now, other)
  {
    var dir, mine, other := Abs([home, folder]), Abs([home, folder, "samples", file]), Abs([away, file]);
    PathsApart(home, folder, away, file);
    e := new Export(dir, map[]);
    assert e.entries.Keys == {};
    var name := e.PullExternal(other, "samples", map[]);
    FirstNameIsFree(name, {}, "samples", file);
    var ref := Found(dir, mine, Some(mine), false);
    now := RelativeZipPath(ParentOf("scripts/job.yaml"), name);
    RefLands(e, map[], ref, true, "scripts/job.yaml", now);
    RefLands(e, map[], Outside(other, other), true, "scripts/job.yaml", now);
  }

  lemma PathsApart(home: string, folder: string, away: string, file: string)
    requires Name(home) && Name(folder) && Name(away) && Name(file) && home != away
    ensures var dir, mine, other := Abs([home, folder]), Abs([home, folder, "samples", file]), Abs([away, file]);
      && InFolder(dir, mine) && ZipName(dir, mine) == "samples" + ['/'] + file && AllOrdinary(Segments(mine))
      && !InFolder(dir, other) && FileName(other) == file && AllOrdinary(Segments(other)) && !SamePath(mine, other)
  {
    AbsSegments([home, folder]);
    AbsSegments([home, folder, "samples", file]);
    AbsSegments([away, file]);
    assert [home, folder, "samples", file][..2] == [home, folder];
    assert [home, folder, "samples", file][2..] == ["samples", file];
    assert ["samples", file][1..] == [file];
    assert Join(["samples", file]) == "samples" + ['/'] + Join([file]);
    assert LastName([away, file]) == file;
  }

  lemma FirstNameIsFree(name: string, taken: set<string>, under: string, base: string)
    requires FirstFree(name, taken, under, base) && Candidate(under, base, 0) !in taken
    ensures name == under + ['/'] + base
  {
    assert FreeAt(Candidate(under, base, 0), taken, under, base, 0);
    FirstFreeIsUnique(name, Candidate(under, base, 0), taken, under, base);
  }

  // ---- the whole export --------------------------------------------------------------------------

  datatype Script = Script(name: string, refs: seq<Ref>)

  /** An entry that holds a job: as it was when nothing had to be rewritten, else with its references
      rewritten for where it is. */
  ghost predicate JobEntry(src: Src, path: string, job: string, refs: seq<Ref>, moved: bool,
                           pulled: map<string, string>) {
    if AllKept(refs, moved) then src == File(path)
    else src.Rewritten? && src.path == path && RefsDone(refs, moved, job, src.refs, pulled)
  }

  lemma JobEntryStays(src: Src, path: string, job: string, refs: seq<Ref>, moved: bool,
                      pulled: map<string, string>, more: map<string, string>)
    requires JobEntry(src, path, job, refs, moved, pulled) && Extends(more, pulled)
    ensures JobEntry(src, path, job, refs, moved, more)
  {
  }

  /** Every script so far is in place. */
  ghost predicate ScriptsDone(scripts: seq<Script>, k: nat, entries: map<string, Src>, inTree: map<string, string>,
                              pulled: map<string, string>)
    requires k <= |scripts|
  {
    forall i :: 0 <= i < k ==>
      var s := scripts[i];
      s.name in inTree && s.name in entries && JobEntry(entries[s.name], inTree[s.name], s.name, s.refs, false, pulled)
  }

  ghost predicate JobDone(path: string, refs: seq<Ref>, entries: map<string, Src>, pulled: map<string, string>) {
    path in pulled && pulled[path] in entries && JobEntry(entries[pulled[path]], path, pulled[path], refs, true, pulled)
  }

  /** What stands under a pulled file's name: the file, or the finished job it is. */
  ghost predicate PulledEntry(p: string, refsOf: map<string, seq<Ref>>, entries: map<string, Src>,
                              pulled: map<string, string>)
    requires p in pulled
  {
    pulled[p] in entries && (entries[pulled[p]] == File(p) || (p in refsOf && JobDone(p, refsOf[p], entries, pulled)))
  }

  ghost predicate PulledOk(refsOf: map<string, seq<Ref>>, entries: map<string, Src>, pulled: map<string, string>) {
    forall p :: p in pulled ==> PulledEntry(p, refsOf, entries, pulled)
  }

  /** All entries but one are as they were. */
  ghost predicate KeepsBut(more: map<string, Src>, entries: map<string, Src>, name: string) {
    forall n :: n in entries && n != name ==> n in more && more[n] == entries[n]
  }

  /** One in-tree script: pull what it needs, and rewrite it if it refers to anything by a path that
      the bundle breaks. */
  method ExportScript(e: Export, script: Script, ghost inTree: map<string, string>)
    requires e.Valid(inTree) && script.name in inTree && e.entries[script.name] == File(inTree[script.name])
    requires AllFound(e.dir, script.refs)
    modifies e
    ensures e.Valid(inTree) && Extends(e.pulled, old(e.pulled)) && KeepsBut(e.entries, old(e.entries), script.name)
    ensures NewAreFiles(e.entries, e.pulled, old(e.pulled)) && NewAreSamples(e.pulled, old(e.pulled), script.refs)
    ensures JobEntry(e.entries[script.name], inTree[script.name], script.name, script.refs, false, e.pulled)
  {
    var now, rewritten := Normalize(e, script.name, script.refs, false, inTree);
    if rewritten {
      e.Rewrite(script.name, now, inTree);
    }
  }

  /** What exporting a job has to leave. */
  ghost predicate JobPlaced(path: string, refs: seq<Ref>, name: string, entries: map<string, Src>,
                            pulled: map<string, string>, entries': map<string, Src>, pulled': map<string, string>)
  {
    && Extends(pulled', pulled) && KeepsBut(entries', entries, name)
    && path in pulled' && name == pulled'[path] && JobDone(path, refs, entries', pulled')
    && (forall p :: p in pulled' && p !in pulled && p != path ==>
          pulled'[p] in entries' && entries'[pulled'[p]] == File(p))
  }

  /** A job that was pulled in, now or before, and its references normalized. */
  ghost predicate PulledIn(path: string, refs: seq<Ref>, name: string, entries: map<string, Src>,
                           pulled: map<string, string>, entries1: map<string, Src>, pulled1: map<string, string>)
  {
    && path in pulled1 && pulled1[path] == name && name in entries1 && entries1[name].path == path
    && if path in pulled then
         entries1 == entries && pulled1 == pulled &&
         (entries[name] == File(path) || JobDone(path, refs, entries, pulled))
       else
         name !in entries && entries1 == entries[name := File(path)] && pulled1 == pulled[path := name]
  }

  lemma PulledInKeeps(path: string, refs: seq<Ref>, name: string, entries: map<string, Src>,
                      pulled: map<string, string>, entries1: map<string, Src>, pulled1: map<string, string>,
                      entries2: map<string, Src>, pulled2: map<string, string>)
    requires PulledIn(path, refs, name, entries, pulled, entries1, pulled1)
    requires Extends(pulled2, pulled1) && Keeps(entries2, entries1) && NewAreFiles(entries2, pulled2, pulled1)
    ensures Extends(pulled2, pulled) && KeepsBut(entries2, entries, name) && path in pulled2 && pulled2[path] == name
    ensures name in entries2 && entries2[name].path == path && (AllKept(refs, true) ==> entries2[name] == File(path))
    ensures forall p :: p in pulled2 && p !in pulled && p != path ==>
      pulled2[p] in entries2 && entries2[pulled2[p]] == File(p)
  {
  }

  /** Pulling a job in, normalizing it and putting its new text in place, as maps. */
  lemma JobIsPlaced(path: string, refs: seq<Ref>, name: string, entries: map<string, Src>, pulled: map<string, string>,
                    entries1: map<string, Src>, pulled1: map<string, string>,
                    entries2: map<string, Src>, pulled2: map<string, string>, now: seq<string>)
    requires PulledIn(path, refs, name, entries, pulled, entries1, pulled1)
    requires Extends(pulled2, pulled1) && Keeps(entries2, entries1) && NewAreFiles(entries2, pulled2, pulled1)
    requires forall p :: p in pulled2 && p != path ==> pulled2[p] != name
    requires RefsDone(refs, true, name, now, pulled2)
    ensures name in entries2
    ensures AllKept(refs, true) ==> JobPlaced(path, refs, name, entries, pulled, entries2, pulled2)
    ensures !AllKept(refs, true) ==>
      JobPlaced(path, refs, name, entries, pulled, entries2[name := Rewritten(entries2[name].path, now)], pulled2)
  {
    PulledInKeeps(path, refs, name, entries, pulled, entries1, pulled1, entries2, pulled2);
  }

  /** What exporting a job pulls in is the job, as a script, and samples of its. */
  ghost predicate NewAreHomed(pulled: map<string, string>, before: map<string, string>, job: string, refs: seq<Ref>) {
    forall p :: p in pulled && p !in before ==>
      (p == job && NamedUnder(pulled[p], "scripts", p)) || (p in TargetsOf(refs) && NamedUnder(pulled[p], "samples", p))
  }

  /** Some script, or some job of the config, refers to the file. */
  ghost predicate Wanted(p: string, scripts: seq<Script>, jobs: seq<string>, refsOf: map<string, seq<Ref>>) {
    || (exists i :: 0 <= i < |scripts| && p in TargetsOf(scripts[i].refs))
    || (exists i :: 0 <= i < |jobs| && jobs[i] in refsOf && p in TargetsOf(refsOf[jobs[i]]))
  }

  /** Nothing is pulled in for nothing: a file that is referred to is among the samples, and a job of the
      config among the scripts, each under its own file name. A job that was pulled in as a sample
      before stays there. */
  ghost predicate AllHomed(pulled: map<string, string>, scripts: seq<Script>, jobs: seq<string>,
                           refsOf: map<string, seq<Ref>>)
  {
    forall p :: p in pulled ==>
      (p in jobs && NamedUnder(pulled[p], "scripts", p)) ||
      (Wanted(p, scripts, jobs, refsOf) && NamedUnder(pulled[p], "samples", p))
  }

  lemma HomedByScript(pulled: map<string, string>, more: map<string, string>, scripts: seq<Script>, k: nat,
                      jobs: seq<string>, refsOf: map<string, seq<Ref>>)
    requires k < |scripts| && AllHomed(pulled, scripts, jobs, refsOf) && Extends(more, pulled)
    requires NewAreSamples(more, pulled, scripts[k].refs)
    ensures AllHomed(more, scripts, jobs, refsOf)
  {
  }

  lemma HomedByJob(pulled: map<string, string>, more: map<string, string>, scripts: seq<Script>, jobs: seq<string>,
                   k: nat, refsOf: map<string, seq<Ref>>)
    requires k < |jobs| && jobs[k] in refsOf && AllHomed(pulled, scripts, jobs, refsOf) && Extends(more, pulled)
    requires NewAreHomed(more, pulled, jobs[k], refsOf[jobs[k]])
    ensures AllHomed(more, scripts, jobs, refsOf)
  {
  }

  /** One out-of-tree job of the config: pull it in, and rewrite its references for its new place. A
      job that several numbers share is simply done again. */
  method ExportJob(e: Export, path: string, refs: seq<Ref>, ghost inTree: map<string, string>) returns (name: string)
    requires e.Valid(inTree) && !InFolder(e.dir, path) && AllFound(e.dir, refs)
    requires path in e.pulled ==> e.entries[e.pulled[path]] == File(path) || JobDone(path, refs, e.entries, e.pulled)
    modifies e
    ensures e.Valid(inTree) && JobPlaced(path, refs, name, old(e.entries), old(e.pulled), e.entries, e.pulled)
    ensures NewAreHomed(e.pulled, old(e.pulled), path, refs)
  {
    ghost var entries, pulled := e.entries, e.pulled;
    name := e.PullExternal(path, "scripts", inTree);
    if path !in pulled {
      FreeIsNamed(name, entries.Keys, "scripts", path);
    }
    ghost var entries1, pulled1 := e.entries, e.pulled;
    var now, rewritten := Normalize(e, name, refs, true, inTree);
    NamesDiffer(e, inTree, path);
    JobIsPlaced(path, refs, name, entries, pulled, entries1, pulled1, e.entries, e.pulled, now);
    if rewritten {
      e.Rewrite(name, now, inTree);
    }
  }

  lemma ScriptsStay(scripts: seq<Script>, k: nat, entries: map<string, Src>, more: map<string, Src>, name: string,
                    inTree: map<string, string>, pulled: map<string, string>, more': map<string, string>)
    requires k <= |scripts| && ScriptsDone(scripts, k, entries, inTree, pulled)
    requires KeepsBut(more, entries, name) && Extends(more', pulled)
    requires forall i :: 0 <= i < k ==> scripts[i].name != name
    ensures ScriptsDone(scripts, k, more, inTree, more')
  {
    forall i | 0 <= i < k
      ensures JobEntry(more[scripts[i].name], inTree[scripts[i].name], scripts[i].name, scripts[i].refs, false, more')
    {
      var s := scripts[i];
      assert JobEntry(entries[s.name], inTree[s.name], s.name, s.refs, false, pulled);
      JobEntryStays(entries[s.name], inTree[s.name], s.name, s.refs, false, pulled, more');
    }
  }

  /** The scripts still to come are in the bundle as they are. */
  ghost predicate ScriptsWaiting(scripts: seq<Script>, k: nat, entries: map<string, Src>, inTree: map<string, string>) {
    forall i :: k <= i < |scripts| ==>
      var name := scripts[i].name;
      name in inTree && name in entries && entries[name] == File(inTree[name])
  }

  ghost predicate NamesOnce(scripts: seq<Script>) {
    forall i, j :: 0 <= i < j < |scripts| ==> scripts[i].name != scripts[j].name
  }

  lemma ScriptStep(scripts: seq<Script>, k: nat, entries: map<string, Src>, pulled: map<string, string>,
                   entries': map<string, Src>, pulled': map<string, string>, inTree: map<string, string>)
    requires k < |scripts| && NamesOnce(scripts)
    requires ScriptsDone(scripts, k, entries, inTree, pulled) && ScriptsWaiting(scripts, k, entries, inTree)
    requires Extends(pulled', pulled) && KeepsBut(entries', entries, scripts[k].name)
    requires scripts[k].name in entries' &&
             JobEntry(entries'[scripts[k].name], inTree[scripts[k].name], scripts[k].name, scripts[k].refs, false,
                      pulled')
    ensures ScriptsDone(scripts, k + 1, entries', inTree, pulled') && ScriptsWaiting(scripts, k + 1, entries', inTree)
  {
    ScriptsStay(scripts, k, entries, entries', scripts[k].name, inTree, pulled, pulled');
  }

  ghost predicate ScriptsFound(dir: string, scripts: seq<Script>) {
    forall i :: 0 <= i < |scripts| ==> AllFound(dir, scripts[i].refs)
  }

  /** Files of the folder that are no scripts are in the bundle as they are. */
  ghost predicate RestAsIs(scripts: seq<Script>, entries: map<string, Src>, inTree: map<string, string>) {
    forall n :: n in inTree ==> n in entries && (IsScript(scripts, n) || entries[n] == File(inTree[n]))
  }

  predicate IsScript(scripts: seq<Script>, name: string) {
    exists i :: 0 <= i < |scripts| && scripts[i].name == name
  }

  lemma RestStays(scripts: seq<Script>, entries: map<string, Src>, entries': map<string, Src>,
                  inTree: map<string, string>, name: string)
    requires RestAsIs(scripts, entries, inTree) && KeepsBut(entries', entries, name)
    requires (name in inTree ==> IsScript(scripts, name)) && (name in entries ==> name in entries')
    ensures RestAsIs(scripts, entries', inTree)
  {
  }

  /** The folder's own scripts. */
  method ExportScripts(e: Export, scripts: seq<Script>, ghost jobs: seq<string>, ghost refsOf: map<string, seq<Ref>>,
                       ghost inTree: map<string, string>)
    requires e.Valid(inTree) && e.pulled == map[] && ScriptsFound(e.dir, scripts)
    requires ScriptsWaiting(scripts, 0, e.entries, inTree) && NamesOnce(scripts) && RestAsIs(scripts, e.entries, inTree)
    modifies e
    ensures e.Valid(inTree) && ScriptsDone(scripts, |scripts|, e.entries, inTree, e.pulled)
    ensures NewAreFiles(e.entries, e.pulled, map[]) && RestAsIs(scripts, e.entries, inTree)
    ensures AllHomed(e.pulled, scripts, jobs, refsOf)
  {
    for k := 0 to |scripts|
      invariant e.Valid(inTree) && ScriptsDone(scripts, k, e.entries, inTree, e.pulled)
      invariant ScriptsWaiting(scripts, k, e.entries, inTree) && RestAsIs(scripts, e.entries, inTree)
      invariant NewAreFiles(e.entries, e.pulled, map[]) && AllHomed(e.pulled, scripts, jobs, refsOf)
    {
      ghost var entries, pulled := e.entries, e.pulled;
      ExportScript(e, scripts[k], inTree);
      ScriptStep(scripts, k, entries, pulled, e.entries, e.pulled, inTree);
      HomedByScript(pulled, e.pulled, scripts, k, jobs, refsOf);
      FilesStay(entries, pulled, e.entries, e.pulled, inTree, scripts[k].name);
      RestStays(scripts, entries, e.entries, inTree, scripts[k].name);
    }
  }

  lemma FilesStay(entries: map<string, Src>, pulled: map<string, string>, entries': map<string, Src>,
                  pulled': map<string, string>, inTree: map<string, string>, name: string)
    requires NewAreFiles(entries, pulled, map[]) && NewAreFiles(entries', pulled', pulled)
    requires Extends(pulled', pulled) && KeepsBut(entries', entries, name)
    requires name in inTree && forall p :: p in pulled ==> pulled[p] !in inTree
    ensures NewAreFiles(entries', pulled', map[])
  {
  }

  /** A finished job stays finished while another one is exported. */
  lemma JobStays(p: string, refs: seq<Ref>, name: string, entries: map<string, Src>, pulled: map<string, string>,
                 entries': map<string, Src>, pulled': map<string, string>)
    requires JobDone(p, refs, entries, pulled) && Extends(pulled', pulled) && KeepsBut(entries', entries, name)
    requires pulled'[p] != name
    ensures JobDone(p, refs, entries', pulled')
  {
    JobEntryStays(entries[pulled[p]], p, pulled[p], refs, true, pulled, pulled');
  }

  lemma PulledStays(p: string, refsOf: map<string, seq<Ref>>, name: string, entries: map<string, Src>,
                    pulled: map<string, string>, entries': map<string, Src>, pulled': map<string, string>)
    requires p in pulled && PulledEntry(p, refsOf, entries, pulled)
    requires Extends(pulled', pulled) && KeepsBut(entries', entries, name) && pulled'[p] != name
    ensures PulledEntry(p, refsOf, entries', pulled')
  {
    if entries[pulled[p]] != File(p) {
      JobStays(p, refsOf[p], name, entries, pulled, entries', pulled');
    }
  }

  ghost predicate JobsDone(jobs: seq<string>, k: nat, refsOf: map<string, seq<Ref>>, entries: map<string, Src>,
                           pulled: map<string, string>)
    requires k <= |jobs|
  {
    forall i :: 0 <= i < k ==> jobs[i] in refsOf && JobDone(jobs[i], refsOf[jobs[i]], entries, pulled)
  }

  /** No two files pulled have one name. */
  ghost predicate OneNameEach(pulled: map<string, string>, path: string) {
    path in pulled && forall p :: p in pulled && p != path ==> pulled[p] != pulled[path]
  }

  lemma PulledStep(path: string, refsOf: map<string, seq<Ref>>, name: string, entries: map<string, Src>,
                   pulled: map<string, string>, entries': map<string, Src>, pulled': map<string, string>)
    requires path in refsOf && JobPlaced(path, refsOf[path], name, entries, pulled, entries', pulled')
    requires PulledOk(refsOf, entries, pulled) && OneNameEach(pulled', path)
    ensures PulledOk(refsOf, entries', pulled')
  {
    forall p | p in pulled'
      ensures PulledEntry(p, refsOf, entries', pulled')
    {
      if p in pulled && p != path {
        assert PulledEntry(p, refsOf, entries, pulled);
        PulledStays(p, refsOf, name, entries, pulled, entries', pulled');
      }
    }
  }

  lemma JobsStep(jobs: seq<string>, k: nat, refsOf: map<string, seq<Ref>>, name: string, entries: map<string, Src>,
                 pulled: map<string, string>, entries': map<string, Src>, pulled': map<string, string>)
    requires k < |jobs| && jobs[k] in refsOf && JobsDone(jobs, k, refsOf, entries, pulled)
    requires JobPlaced(jobs[k], refsOf[jobs[k]], name, entries, pulled, entries', pulled')
    requires OneNameEach(pulled', jobs[k])
    ensures JobsDone(jobs, k + 1, refsOf, entries', pulled')
  {
    forall i | 0 <= i < k && jobs[i] != jobs[k]
      ensures JobDone(jobs[i], refsOf[jobs[i]], entries', pulled')
    {
      JobStays(jobs[i], refsOf[jobs[i]], name, entries, pulled, entries', pulled');
    }
  }

  /** The jobs a config can name from outside the folder, and what they refer to. */
  ghost predicate JobsFound(dir: string, refsOf: map<string, seq<Ref>>) {
    forall p :: p in refsOf ==> !InFolder(dir, p) && AllFound(dir, refsOf[p])
  }

  /** The config's out-of-tree jobs. */
  method ExportJobs(e: Export, jobs: seq<string>, refsOf: map<string, seq<Ref>>, ghost scripts: seq<Script>,
                    ghost inTree: map<string, string>)
    requires e.Valid(inTree) && ScriptsDone(scripts, |scripts|, e.entries, inTree, e.pulled)
    requires NewAreFiles(e.entries, e.pulled, map[]) && RestAsIs(scripts, e.entries, inTree)
    requires AllHomed(e.pulled, scripts, jobs, refsOf)
    requires JobsFound(e.dir, refsOf) && forall i :: 0 <= i < |jobs| ==> jobs[i] in refsOf
    modifies e
    ensures e.Valid(inTree) && ScriptsDone(scripts, |scripts|, e.entries, inTree, e.pulled)
    ensures RestAsIs(scripts, e.entries, inTree) && AllHomed(e.pulled, scripts, jobs, refsOf)
    ensures JobsDone(jobs, |jobs|, refsOf, e.entries, e.pulled) && PulledOk(refsOf, e.entries, e.pulled)
  {
    for k := 0 to |jobs|
      invariant e.Valid(inTree) && ScriptsDone(scripts, |scripts|, e.entries, inTree, e.pulled)
      invariant PulledOk(refsOf, e.entries, e.pulled) && JobsDone(jobs, k, refsOf, e.entries, e.pulled)
      invariant RestAsIs(scripts, e.entries, inTree) && AllHomed(e.pulled, scripts, jobs, refsOf)
    {
      ghost var entries, pulled := e.entries, e.pulled;
      assert jobs[k] in pulled ==> PulledEntry(jobs[k], refsOf, entries, pulled);
      var name := ExportJob(e, jobs[k], refsOf[jobs[k]], inTree);
      NamesDiffer(e, inTree, jobs[k]);
      ScriptsStay(scripts, |scripts|, entries, e.entries, name, inTree, pulled, e.pulled);
      RestStays(scripts, entries, e.entries, inTree, name);
      HomedByJob(pulled, e.pulled, scripts, jobs, k, refsOf);
      PulledStep(jobs[k], refsOf, name, entries, pulled, e.entries, e.pulled);
      JobsStep(jobs, k, refsOf, name, entries, pulled, e.entries, e.pulled);
    }
  }

  /** The text a reference of an entry's job has in the bundle. */
  function TextAt(src: Src, refs: seq<Ref>, k: nat): string
    requires k < |refs| && (src.Rewritten? ==> |src.refs| == |refs|)
  {
    if src.Rewritten? then src.refs[k] else refs[k].text
  }

  /** Where a reference leads from its job's place in the bundle. A missing one is as it was. One to a file
      outside the folder leads to that file, which is in the bundle. One into the folder leads to its own
      file exactly when that is in the bundle, if the job has moved, or if it was an absolute path to a
      file that is not left out; else it is as it was, and leads there exactly when the file is in the
      bundle and the way to it never climbs above the folder (as long as no link leads it astray on disk). */
  ghost predicate Goes(e: Export, inTree: map<string, string>, job: string, ref: Ref, moved: bool, text: string)
    reads e
  {
    match ref
    case Missing(was) => text == was
    case Outside(_, target) => target in e.pulled && Lands(e.entries, job, text, target)
    case Inside(was, target, name, bundled) =>
      if moved || (bundled && was != [] && was[0] == '/') then
        Lands(e.entries, job, text, target) <==> name in inTree
      else
        && text == was
        && (OnDisk(e.dir, job, was) == Segments(target) ==>
              (Lands(e.entries, job, text, target) <==>
                 name in inTree && NeverAbove(|Segments(ParentOf(job))|, Segments(was))))
  }

  /** Every reference of the job goes where it should, and the job is byte for byte what it was exactly when
      no reference changes. */
  ghost predicate RefsGo(e: Export, inTree: map<string, string>, job: string, refs: seq<Ref>, moved: bool)
    reads e
  {
    && job in e.entries
    && var src := e.entries[job];
    && (src.Rewritten? ==> |src.refs| == |refs|)
    && (src.File? <==> forall k :: 0 <= k < |refs| ==> !Changes(refs[k], moved))
    && forall k :: 0 <= k < |refs| ==> Goes(e, inTree, job, refs[k], moved, TextAt(src, refs, k))
  }

  lemma RefGoes(e: Export, inTree: map<string, string>, job: string, ref: Ref, moved: bool, text: string)
    requires e.Valid(inTree) && FoundIn(e.dir, ref)
    requires if !Changes(ref, moved) then text == ref.text else RefDone(ref, moved, job, text, e.pulled)
    ensures Goes(e, inTree, job, ref, moved, text)
  {
    if Changes(ref, moved) {
      RefLands(e, inTree, ref, moved, job, text);
    } else if ref.Inside? && OnDisk(e.dir, job, ref.text) == Segments(ref.target) {
      KeptRefLands(e, inTree, ref, job);
    }
  }

  lemma JobGoes(e: Export, inTree: map<string, string>, job: string, path: string, refs: seq<Ref>, moved: bool)
    requires e.Valid(inTree) && AllFound(e.dir, refs) && job in e.entries
    requires JobEntry(e.entries[job], path, job, refs, moved, e.pulled)
    ensures RefsGo(e, inTree, job, refs, moved)
  {
    var src := e.entries[job];
    forall k | 0 <= k < |refs|
      ensures Goes(e, inTree, job, refs[k], moved, TextAt(src, refs, k))
    {
      assert src.Rewritten? ==> RefDone(refs[k], moved, job, src.refs[k], e.pulled);
      RefGoes(e, inTree, job, refs[k], moved, TextAt(src, refs, k));
    }
  }

  /** What an export leaves: every in-tree name for its own file, as it is unless it is a script; every pulled
      file under one name of its own, in its directory, as it is unless it is a job that was exported; every
      reference of every script and of every out-of-tree job leading where it should; and nothing else. */
  ghost predicate Exported(e: Export, inTree: map<string, string>, scripts: seq<Script>, jobs: seq<string>,
                           refsOf: map<string, seq<Ref>>)
    reads e
  {
    && e.Valid(inTree) && RestAsIs(scripts, e.entries, inTree) && PulledOk(refsOf, e.entries, e.pulled)
    && ScriptsDone(scripts, |scripts|, e.entries, inTree, e.pulled)
    && JobsDone(jobs, |jobs|, refsOf, e.entries, e.pulled) && AllHomed(e.pulled, scripts, jobs, refsOf)
    && (forall i :: 0 <= i < |scripts| ==> RefsGo(e, inTree, scripts[i].name, scripts[i].refs, false))
    && (forall i :: 0 <= i < |jobs| ==> RefsGo(e, inTree, e.pulled[jobs[i]], refsOf[jobs[i]], true))
  }

  lemma AllRefsGo(e: Export, inTree: map<string, string>, scripts: seq<Script>, jobs: seq<string>,
                  refsOf: map<string, seq<Ref>>)
    requires e.Valid(inTree) && ScriptsFound(e.dir, scripts) && JobsFound(e.dir, refsOf)
    requires ScriptsDone(scripts, |scripts|, e.entries, inTree, e.pulled)
    requires JobsDone(jobs, |jobs|, refsOf, e.entries, e.pulled)
    ensures forall i :: 0 <= i < |scripts| ==> RefsGo(e, inTree, scripts[i].name, scripts[i].refs, false)
    ensures forall i :: 0 <= i < |jobs| ==> RefsGo(e, inTree, e.pulled[jobs[i]], refsOf[jobs[i]], true)
  {
    forall i | 0 <= i < |scripts|
      ensures RefsGo(e, inTree, scripts[i].name, scripts[i].refs, false)
    {
      JobGoes(e, inTree, scripts[i].name, inTree[scripts[i].name], scripts[i].refs, false);
    }
    forall i | 0 <= i < |jobs|
      ensures RefsGo(e, inTree, e.pulled[jobs[i]], refsOf[jobs[i]], true)
    {
      JobGoes(e, inTree, e.pulled[jobs[i]], jobs[i], refsOf[jobs[i]], true);
    }
  }

  /** Export a folder: its files, its scripts with their references, and the out-of-tree jobs of its
      config. */
  method ExportFolder(dir: string, inTree: map<string, string>, scripts: seq<Script>, jobs: seq<string>,
                      refsOf: map<string, seq<Ref>>) returns (e: Export)
    requires TreeOk(dir, inTree) && ScriptsFound(dir, scripts) && JobsFound(dir, refsOf)
    requires forall i :: 0 <= i < |scripts| ==> scripts[i].name in inTree
    requires NamesOnce(scripts)
    requires forall i :: 0 <= i < |jobs| ==> jobs[i] in refsOf
    ensures fresh(e) && e.dir == dir && Exported(e, inTree, scripts, jobs, refsOf)
  {
    e := new Export(dir, inTree);
    ExportScripts(e, scripts, jobs, refsOf, inTree);
    ExportJobs(e, jobs, refsOf, scripts, inTree);
    AllRefsGo(e, inTree, scripts, jobs, refsOf);
  }
}
