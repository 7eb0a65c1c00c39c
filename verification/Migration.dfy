/** Moving the data directory: offline, copy, pointer last (src/admin/migration.ts). */
module Migration {
  import opened Core

  // ---- may this directory be the target? -------------------------------------------------

  /** A normalised absolute path below the root, as its segments. */
  type Path = p: seq<string> | p != [] witness ["data"]

  function Common(a: seq<string>, c: seq<string>): (n: nat)
    ensures n <= |a| && n <= |c| && a[..n] == c[..n]
    ensures n < |a| && n < |c| ==> a[n] != c[n]
  {
    if a != [] && c != [] && a[0] == c[0] then
      var n := Common(a[1..], c[1..]);
      assert a[..n + 1] == [a[0]] + a[1..][..n] && c[..n + 1] == [c[0]] + c[1..][..n];
      n + 1
    else 0
  }

  /** The segments of `path.relative(a, c)`: up to the common ancestor, then down. */
  function Relative(a: Path, c: Path): seq<string> {
    var n := Common(a, c);
    seq(|a| - n, i => "..") + c[n..]
  }

  /** `!relative(ancestor, child).startsWith("..")`, or the same path. */
  predicate IsInsideOrEqual(child: Path, ancestor: Path) {
    child == ancestor
    || (var rel := Relative(ancestor, child); rel == [] || !(".." <= rel[0]))
  }

  predicate PathsOk(src: Path, dest: Path) {
    dest != src && !IsInsideOrEqual(dest, src) && !IsInsideOrEqual(src, dest)
  }

  lemma {:induction false} CommonPrefix(a: seq<string>, c: seq<string>)
    ensures Common(a, c) == |a| <==> a <= c
  {
    if a != [] && c != [] && a[0] == c[0] {
      CommonPrefix(a[1..], c[1..]);
      assert a <= c <==> a[1..] <= c[1..] by {
        if a[1..] <= c[1..] { assert a == [a[0]] + a[1..] && c == [c[0]] + c[1..]; }
      }
    }
  }

  lemma {:induction false} RelativeOutside(a: Path, c: Path)
    ensures a <= c ==> Relative(a, c) == c[|a|..]
    ensures !(a <= c) ==> Relative(a, c) != [] && Relative(a, c)[0] == ".."
  {
    CommonPrefix(a, c);
  }

  /** The test takes a path for inside exactly when it is, unless the segment right below the
      ancestor begins with two dots: such a directory is taken for outside. */
  lemma {:induction false} InsideTest(child: Path, ancestor: Path)
    ensures IsInsideOrEqual(child, ancestor)
       <==> ancestor <= child && (|child| > |ancestor| ==> !(".." <= child[|ancestor|]))
  {
    RelativeOutside(ancestor, child);
    if ancestor <= child && |child| == |ancestor| { assert child == ancestor; }
  }

  /** An accepted pair is disjoint — neither directory holds the other — unless one lies under the
      other through a segment that begins with two dots. */
  lemma {:induction false} AcceptedPairs(src: Path, dest: Path)
    ensures PathsOk(src, dest)
       <==> (!(src <= dest) || (|dest| > |src| && ".." <= dest[|src|]))
            && (!(dest <= src) || (|src| > |dest| && ".." <= src[|dest|]))
  {
    InsideTest(dest, src);
    InsideTest(src, dest);
    if src <= dest && |src| == |dest| { assert src == dest; }
  }

  /** `/data/..old` lies inside `/data` and is accepted as a target. */
  lemma {:induction false} DottedTargetAccepted()
    ensures PathsOk(["data"], ["data", "..old"]) && ["data"] <= ["data", "..old"]
  {
    AcceptedPairs(["data"], ["data", "..old"]);
    assert ['.', '.'] <= "..old" && ".."[..] == ['.', '.'];
  }

  // ---- the disk --------------------------------------------------------------------------

  /** The segments of a file's path below some directory. */
  type Rel = seq<string>

  /** The files below a directory. */
  type Files = map<Rel, string>

  /** Every file there is, by its absolute path. */
  type Disk = map<seq<string>, string>

  /** Exactly these files are below the directory. */
  ghost predicate Holds(disk: Disk, dir: seq<string>, files: Files) {
    && [] !in files
    && forall rel: Rel :: rel != [] ==>
      (rel in files <==> dir + rel in disk) && (rel in files ==> files[rel] == disk[dir + rel])
  }

  predicate Empty(disk: Disk, dir: seq<string>) {
    forall p :: p in disk ==> !(dir < p)
  }

  /** Every file that is not below the directory. */
  function Elsewhere(disk: Disk, dir: seq<string>): Disk {
    map p | p in disk && !(dir < p) :: disk[p]
  }

  lemma {:induction false} Joined(dir: seq<string>, rel: Rel, other: Rel)
    ensures dir + rel == dir + other ==> rel == other
    ensures rel != [] ==> dir < dir + rel
  {
    assert (dir + rel)[|dir|..] == rel && (dir + other)[|dir|..] == other;
  }

  lemma {:induction false} Below(dir: seq<string>, p: seq<string>)
    requires dir < p
    ensures p == dir + p[|dir|..] && p[|dir|..] != []
  {
  }

  lemma {:induction false} EmptyHoldsNothing(disk: Disk, dir: seq<string>)
    ensures Empty(disk, dir) <==> Holds(disk, dir, map[])
  {
    if Holds(disk, dir, map[]) {
      forall p | p in disk && dir < p ensures false { Below(dir, p); }
    } else {
      var rel: Rel :| rel != [] && dir + rel in disk;
      Joined(dir, rel, rel);
    }
  }

  lemma {:induction false} WriteBelow(disk: Disk, dir: seq<string>, files: Files, rel: Rel, content: string)
    requires rel != [] && Holds(disk, dir, files)
    ensures Holds(disk[dir + rel := content], dir, files[rel := content])
    ensures Elsewhere(disk[dir + rel := content], dir) == Elsewhere(disk, dir)
  {
    forall other ensures dir + rel == dir + other ==> rel == other {
      Joined(dir, rel, other);
    }
    Joined(dir, rel, rel);
  }

  lemma {:induction false} RemoveBelow(disk: Disk, dir: seq<string>, files: Files, rel: Rel)
    requires rel != [] && Holds(disk, dir, files)
    ensures Holds(disk - {dir + rel}, dir, files - {rel})
    ensures Elsewhere(disk - {dir + rel}, dir) == Elsewhere(disk, dir)
  {
    forall other ensures dir + rel == dir + other ==> rel == other {
      Joined(dir, rel, other);
    }
    Joined(dir, rel, rel);
  }

  /** Keep of the files below a directory only those named. */
  function Swept(disk: Disk, dir: seq<string>, kept: set<Rel>): Disk {
    map p | p in disk && (dir < p ==> p[|dir|..] in kept) :: disk[p]
  }

  function Only(files: Files, kept: set<Rel>): Files {
    map rel | rel in files && rel in kept :: files[rel]
  }

  lemma {:induction false} SweepBelow(disk: Disk, dir: seq<string>, files: Files, kept: set<Rel>)
    requires Holds(disk, dir, files)
    ensures Holds(Swept(disk, dir, kept), dir, Only(files, kept))
    ensures Elsewhere(Swept(disk, dir, kept), dir) == Elsewhere(disk, dir)
  {
    var after := Swept(disk, dir, kept);
    forall rel: Rel | rel != []
      ensures rel in Only(files, kept) <==> dir + rel in after
      ensures rel in Only(files, kept) ==> Only(files, kept)[rel] == after[dir + rel]
    {
      assert (dir + rel)[|dir|..] == rel && dir < dir + rel;
    }
  }

  /** While the target began empty, a file that was there is there as it was. */
  lemma {:induction false} OldFileKept(before: Disk, after: Disk, dest: seq<string>, p: seq<string>)
    requires Elsewhere(after, dest) == Elsewhere(before, dest) && Empty(before, dest) && p in before
    ensures p in after && after[p] == before[p]
  {
    assert p in Elsewhere(before, dest) && Elsewhere(before, dest)[p] == before[p];
  }

  /** With nothing changed outside a target that began empty, every file of the source is as it
      was, and the source holds those files only unless the target lies inside it and is not empty
      any more. */
  lemma {:induction false} SourceUntouchedIff(before: Disk, after: Disk, src: seq<string>, source: Files,
                                              dest: seq<string>)
    requires Elsewhere(after, dest) == Elsewhere(before, dest) && Empty(before, dest) && !(dest <= src)
    requires Holds(before, src, source)
    ensures forall rel :: rel in source ==> src + rel in after && after[src + rel] == source[rel]
    ensures Holds(after, src, source) <==> !(src <= dest) || Empty(after, dest)
  {
    forall rel | rel in source ensures src + rel in after && after[src + rel] == source[rel] {
      OldFileKept(before, after, dest, src + rel);
    }
    if src <= dest && !Empty(after, dest) {
      var p :| p in after && dest < p;
      InnerFile(before, src, dest, p);
    } else {
      forall rel: Rel | rel != [] && src + rel in after ensures rel in source {
        OuterFile(before, after, src, dest, src + rel);
      }
    }
  }

  /** A new file of a target inside the source is a new file below the source. */
  lemma {:induction false} InnerFile(before: Disk, src: seq<string>, dest: seq<string>, p: seq<string>)
    requires src <= dest < p && Empty(before, dest)
    ensures p !in before && p[|src|..] != [] && src + p[|src|..] == p
  {
    assert src < p;
    Below(src, p);
  }

  lemma {:induction false} Nested(a: seq<string>, b: seq<string>, p: seq<string>)
    requires a <= p && b <= p
    ensures a <= b || b <= a
  {
    assert |a| <= |b| ==> a == p[..|a|] == b[..|a|];
    assert |b| <= |a| ==> b == p[..|b|] == a[..|b|];
  }

  /** A file of the source outside the target, or of a target that stayed empty, was there before. */
  lemma {:induction false} OuterFile(before: Disk, after: Disk, src: seq<string>, dest: seq<string>, p: seq<string>)
    requires Elsewhere(after, dest) == Elsewhere(before, dest) && !(dest <= src) && p in after && src <= p
    requires !(src <= dest) || Empty(after, dest)
    ensures p in before
  {
    if dest < p { Nested(src, dest, p); }
    assert p in Elsewhere(after, dest);
  }

  // ---- what a run does, step by step -----------------------------------------------------

  datatype FileEntry = FileEntry(rel: Rel, size: nat)

  predicate Listed(entries: seq<FileEntry>, n: nat, rel: Rel)
    requires n <= |entries|
  {
    exists i :: 0 <= i < n && entries[i].rel == rel
  }

  /** A listing names every file once, with its size, in whatever order. */
  predicate Lists(entries: seq<FileEntry>, files: Files) {
    && (forall i, j :: 0 <= i < j < |entries| ==> entries[i].rel != entries[j].rel)
    && (forall i :: 0 <= i < |entries| ==> entries[i].rel in files && entries[i].size == |files[entries[i].rel]|)
    && (forall rel :: rel in files ==> Listed(entries, |entries|, rel))
  }

  predicate AllIn(entries: seq<FileEntry>, files: Files) {
    forall i :: 0 <= i < |entries| ==> entries[i].rel in files
  }

  function Bytes(entries: seq<FileEntry>, n: nat): nat
    requires n <= |entries|
  {
    if n == 0 then 0 else Bytes(entries, n - 1) + entries[n - 1].size
  }

  datatype Code = PreflightFailed | MkdirFailed | ScanFailed | CopyFailed | PointerWriteFailed

  datatype Event =
    | Start
    | Scanned(files: nat, bytes: nat)
    | Progress(copied: nat, copiedBytes: nat, totalFiles: nat, totalBytes: nat, current: Rel)
    | PointerWritten
    | Done
    | Failed(code: Code)

  datatype Database = OnSource | Closed | Reopened

  /** Which steps fail. A copy that fails may leave part of its file; removals fail for the stuck
      files; a removal of the whole target that fails leaves the files it names; a torn pointer
      write leaves no readable pointer. */
  datatype Faults = Faults(
    unreadable: bool, prescan: bool, mkdir: bool, close: bool, scan: bool,
    copyAt: Option<nat>, partial: Option<string>, stuck: set<Rel>, rmdir: Option<set<Rel>>,
    reopen: bool, pointer: bool, torn: bool)

  /** The checks before anything is touched. A directory that holds the source is not empty. */
  predicate PreflightOk(absolute: bool, src: Path, dest: Path, there: bool, disk: Disk, f: Faults) {
    && absolute && PathsOk(src, dest)
    && (there ==> !f.unreadable && Empty(disk, dest) && !(dest <= src))
    && !f.prescan
  }

  function CopiesUntilFault(files: nat, f: Faults): nat {
    if f.copyAt.Some? && f.copyAt.value < files then f.copyAt.value else files
  }

  /** How a run that got offline ends. */
  function TransferVerdict(files: nat, f: Faults): Option<Code> {
    if f.scan then Some(ScanFailed)
    else if CopiesUntilFault(files, f) < files then Some(CopyFailed)
    else if f.pointer then Some(PointerWriteFailed)
    else None
  }

  /** How a run ends. */
  function Verdict(preflight: bool, there: bool, files: nat, f: Faults): Option<Code> {
    if !preflight then Some(PreflightFailed)
    else if !there && f.mkdir then Some(MkdirFailed)
    else TransferVerdict(files, f)
  }

  predicate GotOffline(verdict: Option<Code>) {
    verdict.None? || !(verdict.value.PreflightFailed? || verdict.value.MkdirFailed?)
  }

  function Tick(entries: seq<FileEntry>, n: nat): Event
    requires n <= |entries|
  {
    Progress(n, Bytes(entries, n), |entries|, Bytes(entries, |entries|), if n < |entries| then entries[n].rel else [])
  }

  /** The progress frames before each of the first n files. */
  function Ticks(entries: seq<FileEntry>, n: nat): seq<Event>
    requires n <= |entries| + 1
  {
    if n == 0 then [] else Ticks(entries, n - 1) + [Tick(entries, n - 1)]
  }

  /** The frames of a scan and of every copy begun. */
  function CopyFrames(entries: seq<FileEntry>, f: Faults): seq<Event> {
    [Scanned(|entries|, Bytes(entries, |entries|))] + Ticks(entries, CopiesUntilFault(|entries|, f) + 1)
  }

  /** Everything a run tells, by how it ends. */
  function Frames(entries: seq<FileEntry>, f: Faults, verdict: Option<Code>): seq<Event> {
    match verdict
    case None => CopyFrames(entries, f) + [PointerWritten, Done]
    case Some(code) =>
      (if code.CopyFailed? || code.PointerWriteFailed? then CopyFrames(entries, f) else []) + [Failed(code)]
  }

  lemma {:induction false} BytesGrow(entries: seq<FileEntry>, m: nat, n: nat)
    requires m <= n <= |entries|
    ensures Bytes(entries, m) <= Bytes(entries, n)
  {
    if m < n { BytesGrow(entries, m, n - 1); }
  }

  /** Progress counts files one by one, never past the totals, and the last frame meets them. */
  lemma {:induction false} ProgressWithinTotals(entries: seq<FileEntry>, n: nat, i: nat)
    requires n <= |entries| + 1 && i < n
    ensures |Ticks(entries, n)| == n
    ensures var t := Ticks(entries, n)[i];
      && t.Progress? && t.copied == i && t.totalFiles == |entries| && t.totalBytes == Bytes(entries, |entries|)
      && t.copied <= t.totalFiles && t.copiedBytes <= t.totalBytes
      && (i == |entries| ==> t.copied == t.totalFiles && t.copiedBytes == t.totalBytes)
  {
    BytesGrow(entries, if i <= |entries| then i else |entries|, |entries|);
    if i < n - 1 {
      ProgressWithinTotals(entries, n - 1, i);
    } else if n > 1 {
      ProgressWithinTotals(entries, n - 1, 0);
    }
  }

  predicate WithinTotals(entries: seq<FileEntry>, e: Event) {
    e.Progress? ==> && e.totalFiles == |entries| && e.totalBytes == Bytes(entries, |entries|)
                    && e.copied <= e.totalFiles && e.copiedBytes <= e.totalBytes
  }

  lemma {:induction false} CopyFramesWithinTotals(entries: seq<FileEntry>, f: Faults)
    ensures forall e :: e in CopyFrames(entries, f) ==> WithinTotals(entries, e)
    ensures CopiesUntilFault(|entries|, f) == |entries| ==> Tick(entries, |entries|) in CopyFrames(entries, f)
  {
    var n := CopiesUntilFault(|entries|, f) + 1;
    var ticks := Ticks(entries, n);
    forall i | 0 <= i < |ticks| ensures WithinTotals(entries, ticks[i]) {
      ProgressWithinTotals(entries, n, 0);
      ProgressWithinTotals(entries, n, i);
    }
    assert ticks[|ticks| - 1] == Tick(entries, n - 1);
  }

  /** However a run ends, no frame of it goes past the totals it announced, and one that gets to
      the pointer has told a frame that meets them. */
  lemma {:induction false} FramesWithinTotals(entries: seq<FileEntry>, f: Faults, verdict: Option<Code>)
    ensures forall e :: e in Frames(entries, f, verdict) ==> WithinTotals(entries, e)
    ensures verdict in {None, Some(PointerWriteFailed)} && CopiesUntilFault(|entries|, f) == |entries| ==>
      Tick(entries, |entries|) in Frames(entries, f, verdict)
  {
    CopyFramesWithinTotals(entries, f);
  }

  /** A frame tells of as many files and bytes as were copied before it, and names the file next. */
  predicate Ticking(entries: seq<FileEntry>, frames: seq<Event>) {
    && (forall i :: 0 <= i < |frames| ==> frames[i].Progress? && frames[i].copied == i)
    && (|frames| > 0 ==> frames[0].copiedBytes == 0)
    && (forall i :: 0 < i < |frames| <= |entries| + 1 ==>
          frames[i].copiedBytes == frames[i - 1].copiedBytes + entries[i - 1].size)
    && (forall i :: 0 <= i < |frames| && i < |entries| ==> frames[i].current == entries[i].rel)
    && (|frames| == |entries| + 1 ==>
          forall i :: 0 <= i < |frames| ==> frames[i].totalBytes == frames[|entries|].copiedBytes)
  }

  lemma {:induction false} TicksAt(entries: seq<FileEntry>, n: nat)
    requires n <= |entries| + 1
    ensures |Ticks(entries, n)| == n && forall i :: 0 <= i < n ==> Ticks(entries, n)[i] == Tick(entries, i)
  {
    if n > 0 { TicksAt(entries, n - 1); }
  }

  lemma {:induction false} TicksTick(entries: seq<FileEntry>, n: nat)
    requires n <= |entries| + 1
    ensures |Ticks(entries, n)| == n && Ticking(entries, Ticks(entries, n))
  {
    TicksAt(entries, n);
    var frames := Ticks(entries, n);
    forall i | 0 < i < n ensures frames[i].copiedBytes == frames[i - 1].copiedBytes + entries[i - 1].size {
      assert Bytes(entries, i) == Bytes(entries, i - 1) + entries[i - 1].size;
    }
  }

  /** What was scanned, and then the files, each told of before it is copied, up to the n-th. */
  predicate CopyingTold(entries: seq<FileEntry>, n: nat, frames: seq<Event>) {
    && |frames| == n + 1 && frames[0].Scanned? && frames[0].files == |entries|
    && Ticking(entries, frames[1..])
    && (forall i :: 0 < i < |frames| ==>
          frames[i].Progress? && frames[i].totalFiles == |entries| && frames[i].totalBytes == frames[0].bytes)
  }

  lemma {:induction false} CopyingTells(entries: seq<FileEntry>, f: Faults)
    ensures CopyingTold(entries, CopiesUntilFault(|entries|, f) + 1, CopyFrames(entries, f))
  {
    var n := CopiesUntilFault(|entries|, f) + 1;
    TicksTick(entries, n);
    TicksAt(entries, n);
    var frames := CopyFrames(entries, f);
    assert frames[1..] == Ticks(entries, n);
    assert forall i :: 0 < i < |frames| ==> frames[i] == Tick(entries, i - 1);
  }

  /** How a run's frames end, and what they tell before that: nothing, if nothing was copied. */
  predicate EndsTold(entries: seq<FileEntry>, f: Faults, verdict: Option<Code>, frames: seq<Event>) {
    match verdict
    case None =>
      && |frames| >= 2 && frames[|frames| - 2] == PointerWritten && frames[|frames| - 1] == Done
      && CopyingTold(entries, |entries| + 1, frames[..|frames| - 2])
    case Some(code) =>
      && frames != [] && frames[|frames| - 1] == Failed(code)
      && if code in {CopyFailed, PointerWriteFailed} then
           CopyingTold(entries, CopiesUntilFault(|entries|, f) + 1, frames[..|frames| - 1])
         else |frames| == 1
  }

  /** The frames of every run end with how it ended. */
  lemma {:induction false} FramesTell(entries: seq<FileEntry>, f: Faults, verdict: Option<Code>)
    requires verdict.None? ==> CopiesUntilFault(|entries|, f) == |entries|
    ensures EndsTold(entries, f, verdict, Frames(entries, f, verdict))
  {
    CopyingTells(entries, f);
    var frames, copying := Frames(entries, f, verdict), CopyFrames(entries, f);
    match verdict {
      case None => assert frames[..|frames| - 2] == copying;
      case Some(code) =>
        if code in {CopyFailed, PointerWriteFailed} { assert frames[..|frames| - 1] == copying; }
    }
  }

  /** A copy fails. */
  predicate CopyFails(files: nat, f: Faults) {
    f.copyAt.Some? && f.copyAt.value < files
  }

  /** A run succeeds if and only if it was let in and no step of it failed, and otherwise ends for
      the first step that did. */
  lemma {:induction false} VerdictMeans(preflight: bool, there: bool, files: nat, f: Faults)
    ensures var v := Verdict(preflight, there, files, f);
      && (v == Some(PreflightFailed) <==> !preflight)
      && (v == Some(MkdirFailed) <==> preflight && !there && f.mkdir)
      && (v == Some(ScanFailed) <==> preflight && (there || !f.mkdir) && f.scan)
      && (v == Some(CopyFailed) <==> preflight && (there || !f.mkdir) && !f.scan && CopyFails(files, f))
      && (v == Some(PointerWriteFailed) <==>
            preflight && (there || !f.mkdir) && !f.scan && !CopyFails(files, f) && f.pointer)
      && (v == None <==> preflight && (there || !f.mkdir) && !f.scan && !CopyFails(files, f) && !f.pointer)
    ensures !CopyFails(files, f) ==> CopiesUntilFault(files, f) == files
    ensures CopyFails(files, f) ==> CopiesUntilFault(files, f) == f.copyAt.value
  {
  }

  /** The files copied so far, in full. */
  function Copied(entries: seq<FileEntry>, source: Files, n: nat): Files
    requires n <= |entries| && AllIn(entries, source)
  {
    if n == 0 then map[] else Copied(entries, source, n - 1)[entries[n - 1].rel := source[entries[n - 1].rel]]
  }

  lemma {:induction false} CopiedFile(entries: seq<FileEntry>, source: Files, n: nat, rel: Rel)
    requires n <= |entries| && AllIn(entries, source)
    ensures rel in Copied(entries, source, n) <==> Listed(entries, n, rel)
    ensures rel in Copied(entries, source, n) ==> rel in source && Copied(entries, source, n)[rel] == source[rel]
  {
    if n > 0 {
      CopiedFile(entries, source, n - 1, rel);
    }
  }

  lemma {:induction false} CopiedFiles(entries: seq<FileEntry>, source: Files, n: nat)
    requires n <= |entries| && Lists(entries, source)
    ensures forall rel :: rel in Copied(entries, source, n) <==> Listed(entries, n, rel)
    ensures n == |entries| ==> Copied(entries, source, n) == source
  {
    forall rel
      ensures rel in Copied(entries, source, n) <==> Listed(entries, n, rel)
      ensures rel in Copied(entries, source, n) ==> rel in source && Copied(entries, source, n)[rel] == source[rel]
    {
      CopiedFile(entries, source, n, rel);
    }
  }

  /** The target after n copies, with whatever the failing one left. */
  function AfterCopies(entries: seq<FileEntry>, source: Files, n: nat, f: Faults): Files
    requires n <= |entries| && AllIn(entries, source)
  {
    if n < |entries| && f.partial.Some? then Copied(entries, source, n)[entries[n].rel := f.partial.value]
    else Copied(entries, source, n)
  }

  function Removed(files: Files, entries: seq<FileEntry>, n: nat, stuck: set<Rel>): Files
    requires n <= |entries|
  {
    map rel | rel in files && (rel in stuck || forall i :: 0 <= i < n ==> entries[i].rel != rel) :: files[rel]
  }

  lemma {:induction false} RemovedStep(files: Files, entries: seq<FileEntry>, i: nat, stuck: set<Rel>)
    requires i < |entries|
    ensures Removed(files, entries, 0, stuck) == files
    ensures Removed(files, entries, i + 1, stuck)
         == if entries[i].rel in stuck then Removed(files, entries, i, stuck)
            else Removed(files, entries, i, stuck) - {entries[i].rel}
  {
  }

  /** A target this run made goes with all in it, unless its removal fails. */
  function RolledBack(left: Files, created: bool, f: Faults): Option<Files> {
    if !created then Some(left) else if f.rmdir.Some? then Some(Only(left, f.rmdir.value)) else None
  }

  /** The target after a copy failed: none if this run made it and can remove it; otherwise what
      the removals could not or did not take. */
  function LeftOver(entries: seq<FileEntry>, source: Files, created: bool, f: Faults): Option<Files>
    requires AllIn(entries, source)
  {
    var n := CopiesUntilFault(|entries|, f);
    RolledBack(Removed(AfterCopies(entries, source, n, f), entries, n, f.stuck), created, f)
  }

  /** The target after a run that got offline. */
  function TargetAfter(entries: seq<FileEntry>, source: Files, created: bool, f: Faults,
                       verdict: Option<Code>): Option<Files>
    requires AllIn(entries, source)
  {
    if verdict == Some(ScanFailed) then Some(map[])
    else if verdict == Some(CopyFailed) then LeftOver(entries, source, created, f)
    else Some(source)
  }

  /** The program's switches and its database. */
  datatype Service = Service(maintenance: bool, restartRequired: bool, database: Database, reopenTried: bool)

  function Suspended(s: Service, f: Faults): Service {
    Service(true, s.restartRequired, if f.close then s.database else Closed, s.reopenTried)
  }

  /** Back on the source, in service. */
  function Recovered(s: Service, f: Faults): Service {
    Service(false, s.restartRequired, if f.reopen then s.database else Reopened, true)
  }

  function ServiceAfter(s: Service, f: Faults, verdict: Option<Code>): Service {
    if verdict.None? then Suspended(s, f).(restartRequired := true) else Recovered(Suspended(s, f), f)
  }

  /** The database is closed, unless that fails, and reopened if the run fails, unless that fails. */
  predicate DatabaseIs(now: Database, before: Database, f: Faults, failed: bool) {
    if failed && !f.reopen then now == Reopened else if f.close then now == before else now == Closed
  }

  function PointerAfter(pointer: Option<Path>, dest: Path, f: Faults, verdict: Option<Code>): Option<Path> {
    if verdict.None? then Some(dest)
    else if verdict == Some(PointerWriteFailed) && f.torn then None
    else pointer
  }

  /** The pointer moves on success alone, and then every file is in the target; only a torn write of
      the pointer loses the old one. */
  lemma {:induction false} AfterMeans(entries: seq<FileEntry>, source: Files, created: bool, f: Faults,
                                      verdict: Option<Code>, pointer: Option<Path>, dest: Path, s: Service)
    requires AllIn(entries, source)
    ensures var target := TargetAfter(entries, source, created, f, verdict);
      var moved := PointerAfter(pointer, dest, f, verdict);
      && (verdict == None ==> moved == Some(dest) && target == Some(source))
      && (verdict == Some(PointerWriteFailed) ==> target == Some(source) && moved == if f.torn then None else pointer)
      && (verdict == Some(ScanFailed) ==> target == Some(map[]))
      && (verdict.Some? && verdict.value != PointerWriteFailed ==> moved == pointer)
    ensures var t := ServiceAfter(s, f, verdict);
      && DatabaseIs(t.database, s.database, f, verdict.Some?)
      && (t.restartRequired <==> s.restartRequired || verdict == None)
      && (t.maintenance <==> verdict == None) && (t.reopenTried <==> s.reopenTried || verdict.Some?)
  {
  }

  /** A failed copy leaves nothing of the run if and only if the target it made can be removed, or,
      in a target that was there, no removal fails and the failing copy left no part of its file. */
  lemma {:induction false} NothingLeftIff(entries: seq<FileEntry>, source: Files, created: bool, f: Faults)
    requires Lists(entries, source) && CopiesUntilFault(|entries|, f) < |entries|
    ensures LeftOver(entries, source, created, f) == (if created then None else Some(map[]))
       <==> if created then f.rmdir.None?
            else f.partial.None? && forall i :: 0 <= i < f.copyAt.value ==> entries[i].rel !in f.stuck
  {
    var n := CopiesUntilFault(|entries|, f);
    CopiedFiles(entries, source, n);
    var after := AfterCopies(entries, source, n, f);
    var left := Removed(after, entries, n, f.stuck);
    if f.partial.Some? {
      assert entries[n].rel in after && entries[n].rel in left;
    } else if exists i :: 0 <= i < n && entries[i].rel in f.stuck {
      var i :| 0 <= i < n && entries[i].rel in f.stuck;
      assert entries[i].rel in after && entries[i].rel in left;
    } else {
      forall rel | rel in after ensures rel !in left {
        var i :| 0 <= i < n && entries[i].rel == rel;
      }
      assert left == map[];
    }
  }

  /** A copy of one file breaks off half way, in a target that was there: the half stays. */
  lemma {:induction false} PartialCopyStays(f: Faults)
    requires f.copyAt == Some(0) && f.partial == Some("x") && f.stuck == {}
    ensures var (entries, source) := ([FileEntry(["db"], 2)], map[["db"] := "xy"]);
      Lists(entries, source) && LeftOver(entries, source, false, f) == Some(map[["db"] := "x"])
  {
    var entries := [FileEntry(["db"], 2)];
    var source: Files := map[["db"] := "xy"];
    assert entries[0].rel == ["db"];
    assert Copied(entries, source, 0) == map[];
    var after := AfterCopies(entries, source, 0, f);
    assert after == map[["db"] := "x"];
    assert Removed(after, entries, 0, {}) == after;
  }

  // ---- the run ---------------------------------------------------------------------------

  /** The program as it moves its data directory: the disk, whether the target is there, the
      pointer, and the flags. */
  class Host {
    const src: Path
    const dest: Path
    var disk: Disk
    var there: bool
    var pointer: Option<Path>
    var service: Service
    var events: seq<Event>

    constructor (src: Path, dest: Path, disk: Disk, there: bool, pointer: Option<Path>)
      ensures this.src == src && this.dest == dest && this.disk == disk && this.there == there
          && this.pointer == pointer
      ensures service == Service(false, false, OnSource, false) && events == []
    {
      this.src, this.dest, this.disk, this.there, this.pointer := src, dest, disk, there, pointer;
      service, events := Service(false, false, OnSource, false), [];
    }

    /** A directory that is not there holds nothing, and those above the source are there. */
    predicate Valid()
      reads this
    {
      !there ==> Empty(disk, dest) && !(dest <= src)
    }

    /** What the target is: not there, or there with exactly these files. */
    ghost predicate TargetIs(target: Option<Files>)
      reads this
    {
      there == target.Some? && Holds(disk, dest, if target.Some? then target.value else map[])
    }

    /** Give up after going offline: the proxy goes on from the source. */
    method Abandon(code: Code, f: Faults)
      modifies this`service, this`events
      ensures service == Recovered(old(service), f) && events == old(events) + [Failed(code)]
    {
      service := service.(maintenance := false);
      service := service.(reopenTried := true);
      if !f.reopen { service := service.(database := Reopened); }
      events := events + [Failed(code)];
    }

    method Write(ghost target: Files, rel: Rel, content: string)
      requires rel != [] && Holds(disk, dest, target)
      modifies this`disk
      ensures Holds(disk, dest, target[rel := content]) && Elsewhere(disk, dest) == Elsewhere(old(disk), dest)
    {
      WriteBelow(disk, dest, target, rel, content);
      disk := disk[dest + rel := content];
    }

    /** Copy file after file, telling the progress before each; stop at the first that fails. */
    method CopyAll(entries: seq<FileEntry>, ghost source: Files, f: Faults) returns (copied: nat)
      requires Holds(disk, src, source) && AllIn(entries, source) && Empty(disk, dest)
      modifies this`disk, this`events
      ensures copied == CopiesUntilFault(|entries|, f) && Elsewhere(disk, dest) == Elsewhere(old(disk), dest)
      ensures Holds(disk, dest, AfterCopies(entries, source, copied, f))
      ensures events == old(events) + Ticks(entries, copied + 1)
    {
      var copiedBytes := 0;
      copied := 0;
      var totalBytes := TotalBytes(entries);
      EmptyHoldsNothing(disk, dest);
      while copied < |entries|
        invariant 0 <= copied <= CopiesUntilFault(|entries|, f) && copiedBytes == Bytes(entries, copied)
        invariant events == old(events) + Ticks(entries, copied)
        invariant Elsewhere(disk, dest) == Elsewhere(old(disk), dest)
        invariant Holds(disk, dest, Copied(entries, source, copied))
      {
        var entry := entries[copied];
        Regroup(old(events), Ticks(entries, copied), [Tick(entries, copied)]);
        events := events + [Progress(copied, copiedBytes, |entries|, totalBytes, entry.rel)];
        if f.copyAt == Some(copied) {
          if f.partial.Some? { Write(Copied(entries, source, copied), entry.rel, f.partial.value); }
          return;
        }
        OldFileKept(old(disk), disk, dest, src + entry.rel);
        Write(Copied(entries, source, copied), entry.rel, disk[src + entry.rel]);
        copied := copied + 1;
        copiedBytes := copiedBytes + entry.size;
      }
      Regroup(old(events), Ticks(entries, copied), [Tick(entries, copied)]);
      events := events + [Progress(copied, copiedBytes, |entries|, totalBytes, [])];
    }

    method RemoveCopied(entries: seq<FileEntry>, n: nat, ghost target: Files, f: Faults)
      requires n <= |entries| && (forall i :: 0 <= i < n ==> entries[i].rel != []) && Holds(disk, dest, target)
      modifies this`disk
      ensures Holds(disk, dest, Removed(target, entries, n, f.stuck))
      ensures Elsewhere(disk, dest) == Elsewhere(old(disk), dest)
    {
      assert Removed(target, entries, 0, f.stuck) == target;
      for i := 0 to n
        invariant Holds(disk, dest, Removed(target, entries, i, f.stuck))
        invariant Elsewhere(disk, dest) == Elsewhere(old(disk), dest)
      {
        RemovedStep(target, entries, i, f.stuck);
        if entries[i].rel !in f.stuck {
          RemoveBelow(disk, dest, Removed(target, entries, i, f.stuck), entries[i].rel);
          disk := disk - {dest + entries[i].rel};
        }
      }
    }

    /** Remove what was copied, and the target itself if this run made it. */
    method RollBack(entries: seq<FileEntry>, n: nat, createdTarget: bool, ghost target: Files, f: Faults)
      requires n <= |entries| && (forall i :: 0 <= i < n ==> entries[i].rel != [])
      requires there && Holds(disk, dest, target)
      modifies this`disk, this`there
      ensures TargetIs(RolledBack(Removed(target, entries, n, f.stuck), createdTarget, f))
      ensures Elsewhere(disk, dest) == Elsewhere(old(disk), dest)
    {
      RemoveCopied(entries, n, target, f);
      if createdTarget {
        var kept := if f.rmdir.Some? then f.rmdir.value else {};
        ghost var left := Removed(target, entries, n, f.stuck);
        SweepBelow(disk, dest, left, kept);
        disk := Swept(disk, dest, kept);
        there := f.rmdir.Some?;
        assert f.rmdir.None? ==> Only(left, kept) == map[];
      }
    }

    /** Copy everything, or roll back and return to the source. */
    method CopyPhase(entries: seq<FileEntry>, ghost source: Files, createdTarget: bool, f: Faults) returns (ok: bool)
      requires Holds(disk, src, source) && Lists(entries, source) && there && Empty(disk, dest)
      modifies this`disk, this`there, this`service, this`events
      ensures ok <==> CopiesUntilFault(|entries|, f) == |entries|
      ensures Elsewhere(disk, dest) == Elsewhere(old(disk), dest)
      ensures ok ==> TargetIs(Some(source)) && unchanged(`service)
      ensures ok ==> events == old(events) + CopyFrames(entries, f)
      ensures !ok ==> TargetIs(LeftOver(entries, source, createdTarget, f))
      ensures !ok ==> service == Recovered(old(service), f)
      ensures !ok ==> events == old(events) + CopyFrames(entries, f) + [Failed(CopyFailed)]
    {
      var totalBytes := TotalBytes(entries);
      events := events + [Scanned(|entries|, totalBytes)];
      Regroup(old(events), [Scanned(|entries|, totalBytes)], Ticks(entries, CopiesUntilFault(|entries|, f) + 1));
      var copied := CopyAll(entries, source, f);
      ok := copied == |entries|;
      if ok {
        CopiedFiles(entries, source, |entries|);
      } else {
        GiveUp(entries, source, createdTarget, f);
      }
    }

    /** A copy failed: roll back, and go on from the source. */
    method GiveUp(entries: seq<FileEntry>, ghost source: Files, createdTarget: bool, f: Faults)
      requires Lists(entries, source) && [] !in source && there
      requires Holds(disk, dest, AfterCopies(entries, source, CopiesUntilFault(|entries|, f), f))
      modifies this`disk, this`there, this`service, this`events
      ensures TargetIs(LeftOver(entries, source, createdTarget, f))
          && Elsewhere(disk, dest) == Elsewhere(old(disk), dest)
      ensures service == Recovered(old(service), f) && events == old(events) + [Failed(CopyFailed)]
    {
      var n := CopiesUntilFault(|entries|, f);
      RollBack(entries, n, createdTarget, AfterCopies(entries, source, n, f), f);
      Abandon(CopyFailed, f);
    }

    /** The pointer last: until it is written, a restart opens the source again. */
    method PointerPhase(f: Faults)
      modifies this`pointer, this`service, this`events
      ensures f.pointer ==> && service == Recovered(old(service), f)
                            && pointer == (if f.torn then None else old(pointer))
                            && events == old(events) + [Failed(PointerWriteFailed)]
      ensures !f.pointer ==> && service == old(service).(restartRequired := true) && pointer == Some(dest)
                             && events == old(events) + [PointerWritten, Done]
    {
      if f.pointer {
        if f.torn { pointer := None; }
        Abandon(PointerWriteFailed, f);
        return;
      }
      pointer := Some(dest);
      events := events + [PointerWritten];
      service := service.(restartRequired := true);
      events := events + [Done];
    }

    /** Offline, scan, copy, pointer. */
    method Transfer(entries: seq<FileEntry>, ghost source: Files, createdTarget: bool, f: Faults)
      returns (ghost verdict: Option<Code>)
      requires Holds(disk, src, source) && Lists(entries, source) && there && Empty(disk, dest)
      modifies this`disk, this`there, this`pointer, this`service, this`events
      ensures verdict == TransferVerdict(|entries|, f) && events == old(events) + Frames(entries, f, verdict)
      ensures Elsewhere(disk, dest) == Elsewhere(old(disk), dest)
      ensures TargetIs(TargetAfter(entries, source, createdTarget, f, verdict))
      ensures pointer == PointerAfter(old(pointer), dest, f, verdict)
      ensures service == ServiceAfter(old(service), f, verdict)
    {
      verdict := TransferVerdict(|entries|, f);
      service := service.(maintenance := true);
      if !f.close { service := service.(database := Closed); }
      if f.scan {
        EmptyHoldsNothing(disk, dest);
        EmptyEnds([Failed(ScanFailed)]);
        Abandon(ScanFailed, f);
      } else {
        CopyAndPoint(entries, source, createdTarget, f);
      }
    }

    /** What follows the scan. */
    method CopyAndPoint(entries: seq<FileEntry>, ghost source: Files, createdTarget: bool, f: Faults)
      requires Holds(disk, src, source) && Lists(entries, source) && there && Empty(disk, dest) && !f.scan
      modifies this`disk, this`there, this`pointer, this`service, this`events
      ensures Elsewhere(disk, dest) == Elsewhere(old(disk), dest)
      ensures var verdict := TransferVerdict(|entries|, f);
        && events == old(events) + Frames(entries, f, verdict)
        && TargetIs(TargetAfter(entries, source, createdTarget, f, verdict))
        && pointer == PointerAfter(old(pointer), dest, f, verdict)
        && service == if verdict.None? then old(service).(restartRequired := true) else Recovered(old(service), f)
    {
      var ok := CopyPhase(entries, source, createdTarget, f);
      Regroup(old(events), CopyFrames(entries, f), [Failed(if ok then PointerWriteFailed else CopyFailed)]);
      Regroup(old(events), CopyFrames(entries, f), [PointerWritten, Done]);
      if ok { PointerPhase(f); }
    }

    /** What is checked before anything is touched. */
    method Preview(absolute: bool, f: Faults) returns (ok: bool)
      requires Valid()
      ensures ok == PreflightOk(absolute, src, dest, there, disk, f)
      ensures ok ==> Empty(disk, dest) && !(dest <= src)
    {
      ok := absolute && PathsOk(src, dest);
      if there && (f.unreadable || !Empty(disk, dest) || dest <= src) { ok := false; }
      if f.prescan { ok := false; }
    }

    method RunMigration(absolute: bool, entries: seq<FileEntry>, ghost source: Files, f: Faults)
      returns (ghost verdict: Option<Code>)
      requires Valid() && Holds(disk, src, source) && Lists(entries, source)
      modifies this`disk, this`there, this`pointer, this`service, this`events
      ensures verdict == Verdict(PreflightOk(absolute, src, dest, old(there), old(disk), f), old(there), |entries|, f)
      ensures events == old(events) + ([Start] + Frames(entries, f, verdict))
      // Refused before anything was touched.
      ensures !GotOffline(verdict) ==>
        unchanged(`disk, `there, `pointer, `service)
      // On no path does a file outside the target change, or one of the source; only a target
      // inside the source adds to it.
      ensures Elsewhere(disk, dest) == Elsewhere(old(disk), dest)
      ensures GotOffline(verdict) ==>
        && (forall rel :: rel in source ==> src + rel in disk && disk[src + rel] == source[rel])
        && (Holds(disk, src, source) <==> !(src <= dest) || Empty(disk, dest))
      // Every file is in place before the pointer moves; a failed copy leaves what is said.
      ensures GotOffline(verdict) ==>
        TargetIs(TargetAfter(entries, source, !old(there), f, verdict))
      ensures pointer == PointerAfter(old(pointer), dest, f, verdict)
      // In service again after a failure, in maintenance until the restart after a success.
      ensures GotOffline(verdict) ==> service == ServiceAfter(old(service), f, verdict)
      ensures GotOffline(verdict) && verdict.Some? ==> !service.maintenance && service.reopenTried
      ensures verdict == None ==> service.maintenance && service.restartRequired
    {
      events := events + [Start];
      var ok := Preview(absolute, f);
      Regroup(old(events), [Start], Frames(entries, f, Verdict(ok, there, |entries|, f)));
      verdict := RunChecked(ok, entries, source, f);
    }

    /** The run after its checks. */
    method RunChecked(ok: bool, entries: seq<FileEntry>, ghost source: Files, f: Faults)
      returns (ghost verdict: Option<Code>)
      requires Holds(disk, src, source) && Lists(entries, source) && (ok ==> Empty(disk, dest) && !(dest <= src))
      modifies this`disk, this`there, this`pointer, this`service, this`events
      ensures verdict == Verdict(ok, old(there), |entries|, f) && events == old(events) + Frames(entries, f, verdict)
      ensures !GotOffline(verdict) ==>
        unchanged(`disk, `there, `pointer, `service)
      ensures Elsewhere(disk, dest) == Elsewhere(old(disk), dest)
      ensures GotOffline(verdict) ==>
        && (forall rel :: rel in source ==> src + rel in disk && disk[src + rel] == source[rel])
        && (Holds(disk, src, source) <==> !(src <= dest) || Empty(disk, dest))
        && TargetIs(TargetAfter(entries, source, !old(there), f, verdict))
        && service == ServiceAfter(old(service), f, verdict)
      ensures pointer == PointerAfter(old(pointer), dest, f, verdict)
    {
      if !ok {
        events := events + [Failed(PreflightFailed)];
        return Some(PreflightFailed);
      }
      var createdTarget := !there;
      if createdTarget {
        if f.mkdir {
          events := events + [Failed(MkdirFailed)];
          return Some(MkdirFailed);
        }
        there := true;
      }
      verdict := Transfer(entries, source, createdTarget, f);
      SourceUntouchedIff(old(disk), disk, src, source, dest);
    }

    method TotalBytes(entries: seq<FileEntry>) returns (total: nat)
      ensures total == Bytes(entries, |entries|)
    {
      total := 0;
      for i := 0 to |entries|
        invariant total == Bytes(entries, i)
      {
        total := total + entries[i].size;
      }
    }
  }
}
