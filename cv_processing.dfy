/**
 * The CV upload queue of the CV Processing page: the file validator, the
 * append-only list of upload records, the simulated progress timer that
 * drives each record through uploading, processing and completed, and the
 * removal of records by name.
 */
module CVProcessing {
  import opened Results

  /** The status shown for an upload record. `Error` exists in the record type but is never assigned. */
  datatype Status = Uploading | Processing | Completed | Error

  /** What the browser's `File` object tells the page. */
  datatype FileInfo = FileInfo(name: string, size: nat, mimeType: string)

  /** One row of the upload list. */
  datatype UploadedFile = UploadedFile(name: string, size: nat, mimeType: string, status: Status, progress: int)

  /** The accepted MIME types: PDF, DOCX, DOC and plain text. */
  const ValidTypes: seq<string> := [
    "application/pdf",
    "application/vnd.openxmlformats-officedocument.wordprocessingml.document",
    "application/msword",
    "text/plain"
  ]

  /** The size cap, 10 MB. */
  const MaxSize: nat := 10 * 1024 * 1024

  /** The step by which each timer tick advances a simulated upload. */
  const TickStep: int := 10

  datatype Rejection = InvalidType | TooLarge

  datatype Verdict = Accepted(entry: UploadedFile) | Rejected(reason: Rejection)

  /**
   * The checks of one file, in the source's order: the type first, then the size.
   * An accepted file becomes a fresh record, uploading at progress 0.
   */
  function Validate(f: FileInfo): (v: Verdict)
    ensures v.Accepted? <==> f.mimeType in ValidTypes && f.size <= MaxSize
    ensures v == Rejected(InvalidType) <==> f.mimeType !in ValidTypes
    ensures v == Rejected(TooLarge) <==> f.mimeType in ValidTypes && f.size > MaxSize
    ensures v.Accepted? ==> v.entry == UploadedFile(f.name, f.size, f.mimeType, Uploading, 0)
  {
    if f.mimeType !in ValidTypes then Rejected(InvalidType)
    else if f.size > MaxSize then Rejected(TooLarge)
    else Accepted(UploadedFile(f.name, f.size, f.mimeType, Uploading, 0))
  }

  /** The records a batch of files adds, in the batch's order: one per accepted file. */
  function NewEntries(batch: seq<FileInfo>): (r: seq<UploadedFile>)
    ensures |r| <= |batch|
    ensures forall k :: 0 <= k < |r| ==> r[k].status == Uploading && r[k].progress == 0
    ensures forall k :: 0 <= k < |r| ==> exists j :: 0 <= j < |batch| && Validate(batch[j]) == Accepted(r[k])
  {
    if batch == [] then []
    else
      var front := NewEntries(batch[..|batch| - 1]);
      match Validate(batch[|batch| - 1])
      case Accepted(e) => front + [e]
      case Rejected(_) => front
  }

  /** One file adds its record when accepted and nothing when rejected. */
  lemma NewEntriesOne(f: FileInfo)
    ensures NewEntries([f]) == if Validate(f).Accepted? then [Validate(f).entry] else []
  {
    assert [f][..0] == [];
  }

  /** A batch is handled file by file: the records of two batches follow each other in order. */
  lemma {:induction false} NewEntriesAppend(a: seq<FileInfo>, b: seq<FileInfo>)
    ensures NewEntries(a + b) == NewEntries(a) + NewEntries(b)
  {
    if b == [] {
      assert a + b == a;
    } else {
      var b' := b[..|b| - 1];
      NewEntriesAppend(a, b');
      assert (a + b)[..|a + b| - 1] == a + b';
      assert (a + b)[|a + b| - 1] == b[|b| - 1];
    }
  }

  /** The names of a list of records, in order. */
  function Names(files: seq<UploadedFile>): (r: seq<string>)
    ensures |r| == |files|
    ensures forall k :: 0 <= k < |files| ==> r[k] == files[k].name
  {
    if files == [] then [] else Names(files[..|files| - 1]) + [files[|files| - 1].name]
  }

  /** The status a tick assigns for a given progress value. */
  function StatusFor(progress: int): (s: Status)
    ensures s == Uploading <==> progress < 50
    ensures s == Processing <==> 50 <= progress < 100
    ensures s == Completed <==> progress >= 100
  {
    if progress < 50 then Uploading else if progress < 100 then Processing else Completed
  }

  /** Position of a status on the way uploading, processing, completed. */
  function Rank(s: Status): nat
  {
    match s
    case Uploading => 0
    case Processing => 1
    case Completed => 2
    case Error => 3
  }

  /** More progress never means an earlier status. */
  lemma StatusMonotone(p: int, q: int)
    requires p <= q
    ensures Rank(StatusFor(p)) <= Rank(StatusFor(q))
  {
  }

  /** A record in a state the page can produce: a multiple of 10 in 0..100, its status derived from it. */
  ghost predicate WellFormed(e: UploadedFile)
  {
    0 <= e.progress <= 100 && e.progress % TickStep == 0 && e.status == StatusFor(e.progress)
  }

  /** The list after one tick of the simulation for `name`: every record of that name takes the new progress. */
  function Ticked(files: seq<UploadedFile>, name: string, progress: int): (r: seq<UploadedFile>)
    ensures |r| == |files|
    ensures forall k :: 0 <= k < |files| && files[k].name != name ==> r[k] == files[k]
    ensures forall k :: 0 <= k < |files| && files[k].name == name ==>
              r[k] == files[k].(progress := progress, status := StatusFor(progress))
  {
    if files == [] then []
    else
      var e := files[0];
      [if e.name == name then e.(progress := progress, status := StatusFor(progress)) else e]
        + Ticked(files[1..], name, progress)
  }

  /** A tick keeps every record's name, size and type: it only rewrites progress and status. */
  lemma TickedKeepsIdentity(files: seq<UploadedFile>, name: string, progress: int)
    ensures Names(Ticked(files, name, progress)) == Names(files)
    ensures forall k :: 0 <= k < |files| ==>
              Ticked(files, name, progress)[k].size == files[k].size
              && Ticked(files, name, progress)[k].mimeType == files[k].mimeType
  {
    var r := Ticked(files, name, progress);
    assert forall k :: 0 <= k < |files| ==> Names(r)[k] == Names(files)[k];
  }

  /** A later tick for the same name overwrites an earlier one completely. */
  lemma {:induction false} TickOverwrites(files: seq<UploadedFile>, name: string, p: int, q: int)
    ensures Ticked(Ticked(files, name, p), name, q) == Ticked(files, name, q)
  {
    if files != [] {
      TickOverwrites(files[1..], name, p, q);
      assert Ticked(files, name, p)[1..] == Ticked(files[1..], name, p);
    }
  }

  /**
   * Two uploads with the same name share their rows: a tick of the second
   * simulation pulls a row the first one had advanced back to its own, lower, progress.
   */
  lemma SameNameTickRegresses()
    ensures var row := UploadedFile("cv.pdf", 1, "application/pdf", Processing, 60);
            var files := [row, UploadedFile("cv.pdf", 1, "application/pdf", Uploading, 0)];
            Ticked(files, "cv.pdf", 10)[0].progress == 10 < row.progress
            && Rank(Ticked(files, "cv.pdf", 10)[0].status) < Rank(row.status)
  {
  }

  /** How many records carry `name`. */
  function CountNamed(files: seq<UploadedFile>, name: string): (n: nat)
    ensures n <= |files|
  {
    if files == [] then 0 else (if files[0].name == name then 1 else 0) + CountNamed(files[1..], name)
  }

  /** `removeFile`: the list without every record named `name`, the others kept in order. */
  function RemoveNamed(files: seq<UploadedFile>, name: string): (r: seq<UploadedFile>)
    ensures |r| == |files| - CountNamed(files, name)
    ensures forall e :: e in r <==> e in files && e.name != name
  {
    if files == [] then []
    else if files[0].name == name then RemoveNamed(files[1..], name)
    else [files[0]] + RemoveNamed(files[1..], name)
  }

  /** Removing keeps order: it acts on each part of a concatenation separately. */
  lemma {:induction false} RemoveNamedAppend(a: seq<UploadedFile>, b: seq<UploadedFile>, name: string)
    ensures RemoveNamed(a + b, name) == RemoveNamed(a, name) + RemoveNamed(b, name)
  {
    if a == [] {
      assert a + b == b;
    } else {
      assert (a + b)[0] == a[0];
      assert (a + b)[1..] == a[1..] + b;
      RemoveNamedAppend(a[1..], b, name);
    }
  }

  /** A list with no record of that name is left exactly as it is. */
  lemma {:induction false} RemoveNamedAbsent(files: seq<UploadedFile>, name: string)
    requires forall e :: e in files ==> e.name != name
    ensures RemoveNamed(files, name) == files
  {
    if files != [] {
      assert files[0] in files;
      assert forall e :: e in files[1..] ==> e in files;
      RemoveNamedAbsent(files[1..], name);
    }
  }

  /** Removing twice is removing once. */
  lemma RemoveNamedIdempotent(files: seq<UploadedFile>, name: string)
    ensures RemoveNamed(RemoveNamed(files, name), name) == RemoveNamed(files, name)
  {
    RemoveNamedAbsent(RemoveNamed(files, name), name);
  }

  datatype SizeUnit = B | KB | MB

  /** The unit `formatFileSize` prints a size in. */
  function SizeUnitFor(bytes: nat): (u: SizeUnit)
    ensures u == B <==> bytes < 1024
    ensures u == KB <==> 1024 <= bytes < 1024 * 1024
    ensures u == MB <==> 1024 * 1024 <= bytes
  {
    if bytes < 1024 then B else if bytes < 1024 * 1024 then KB else MB
  }

  /** Every file the validator accepts is shown in B, KB or, at most, 10 MB. */
  lemma AcceptedSizeUnit(f: FileInfo)
    requires Validate(f).Accepted?
    ensures SizeUnitFor(f.size) == MB ==> f.size <= 10 * (1024 * 1024)
  {
  }

  /** The page's upload list and drag highlight. */
  class UploadQueue {
    var files: seq<UploadedFile>
    var isDragging: bool

    /** Every record is one the page can produce. */
    ghost predicate Valid()
      reads this
    {
      forall k :: 0 <= k < |files| ==> WellFormed(files[k])
    }

    constructor ()
      ensures Valid() && files == [] && !isDragging
    {
      files := [];
      isDragging := false;
    }

    /** `handleDragOver`. */
    method DragOver()
      modifies this
      ensures isDragging && files == old(files)
    {
      isDragging := true;
    }

    /** `handleDragLeave`. */
    method DragLeave()
      modifies this
      ensures !isDragging && files == old(files)
    {
      isDragging := false;
    }

    /** `handleDrop`: clears the highlight, then handles the dropped files. */
    method Drop(dropped: seq<FileInfo>) returns (started: seq<string>)
      requires Valid()
      modifies this
      ensures Valid() && !isDragging
      ensures files == old(files) + NewEntries(dropped)
      ensures started == Names(NewEntries(dropped))
    {
      isDragging := false;
      started := HandleFiles(dropped);
    }

    /** `handleFileInput`: the input's file list may be absent, and then nothing happens. */
    method FileInput(chosen: Option<seq<FileInfo>>) returns (started: seq<string>)
      requires Valid()
      modifies this
      ensures Valid() && isDragging == old(isDragging)
      ensures chosen.None? ==> files == old(files) && started == []
      ensures chosen.Some? ==> files == old(files) + NewEntries(chosen.value)
                               && started == Names(NewEntries(chosen.value))
    {
      started := [];
      if chosen.Some? {
        started := HandleFiles(chosen.value);
      }
    }

    /**
     * `handleFiles`: each file of the batch is checked in turn; an accepted one is
     * appended to the list and its simulated upload is started. `started` lists the
     * names the simulations were started for, in order.
     */
    method HandleFiles(batch: seq<FileInfo>) returns (started: seq<string>)
      requires Valid()
      modifies this
      ensures Valid() && isDragging == old(isDragging)
      ensures files == old(files) + NewEntries(batch)
      ensures started == Names(NewEntries(batch))
    {
      started := [];
      var i := 0;
      while i < |batch|
        invariant 0 <= i <= |batch|
        invariant Valid() && isDragging == old(isDragging)
        invariant files == old(files) + NewEntries(batch[..i])
        invariant started == Names(NewEntries(batch[..i]))
      {
        var file := batch[i];
        assert batch[..i + 1][..i] == batch[..i];
        if file.mimeType !in ValidTypes {
          i := i + 1;
          continue;
        }
        if file.size > MaxSize {
          i := i + 1;
          continue;
        }
        var entry := UploadedFile(file.name, file.size, file.mimeType, Uploading, 0);
        files := files + [entry];
        started := started + [file.name];
        i := i + 1;
      }
      assert batch[..|batch|] == batch;
    }

    /** `removeFile`. */
    method RemoveFile(name: string)
      requires Valid()
      modifies this
      ensures Valid() && isDragging == old(isDragging)
      ensures files == RemoveNamed(old(files), name)
    {
      files := RemoveNamed(files, name);
    }
  }

  /**
   * One `simulateUpload` call: the interval's local progress counter, and
   * whether the interval is still set.
   */
  class UploadSimulation {
    const fileName: string
    var progress: int
    var running: bool

    ghost predicate Valid()
      reads this
    {
      0 <= progress <= 100 && progress % TickStep == 0 && running == (progress < 100)
    }

    /** Starting the simulation for `fileName`. */
    constructor (fileName: string)
      ensures Valid() && this.fileName == fileName && progress == 0 && running
    {
      this.fileName := fileName;
      progress := 0;
      running := true;
    }

    /**
     * One firing of the interval: progress grows by 10, every record of this name
     * takes it, and the interval is cleared once progress reaches 100.
     */
    method Tick(queue: UploadQueue)
      requires Valid() && running && queue.Valid()
      modifies this, queue
      ensures Valid() && queue.Valid()
      ensures progress == old(progress) + TickStep
      ensures running == (progress < 100)
      ensures queue.files == Ticked(old(queue.files), fileName, progress)
      ensures queue.isDragging == old(queue.isDragging)
    {
      progress := progress + TickStep;
      queue.files := Ticked(queue.files, fileName, progress);
      running := !(progress >= 100);
    }

    /**
     * The interval firing until it is cleared, with nothing else happening in
     * between: it ends with every record of this name completed at 100.
     */
    method RunUntilCleared(queue: UploadQueue)
      requires Valid() && queue.Valid()
      modifies this, queue
      ensures Valid() && queue.Valid() && !running && progress == 100
      ensures old(running) ==> queue.files == Ticked(old(queue.files), fileName, 100)
      ensures !old(running) ==> queue.files == old(queue.files)
    {
      ghost var start := queue.files;
      ghost var ticked := false;
      while running
        invariant Valid() && queue.Valid()
        invariant !ticked ==> queue.files == start && running == old(running)
        invariant ticked ==> old(running) && queue.files == Ticked(start, fileName, progress)
        decreases 100 - progress
      {
        ghost var before := progress;
        Tick(queue);
        if ticked {
          TickOverwrites(start, fileName, before, progress);
        }
        ticked := true;
      }
    }
  }
}
