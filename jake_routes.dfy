/**
 * The Jake image folder of routes/jake_routes.py.  The folder holds files
 * `{n}.jpg`; slot n (1 <= n <= MAX_IMAGE_NUMBER) is occupied when its file
 * exists.  The folder is the object `ImageFolder`, whose field `occupied` is
 * the set of numbers whose file exists; each HTTP handler is a method of it.
 * A random draw is a parameter of the method that uses it.
 */
module JakeRoutes {
  import opened Wrappers
  import opened Text

  /** `MAX_IMAGE_NUMBER` when the environment does not set it (config.py). */
  const DefaultMaxImageNumber: int := 255

  /** `ALLOWED_EXTENSIONS` (config.py). */
  const AllowedExtensions: set<string> := {"png", "jpg", "jpeg", "gif"}

  /** How many slot numbers the stats preview lists. */
  const PreviewLength: nat := 10

  // ---------------------------------------------------------------------
  // File names

  /** `allowed_file`: the name has a '.', and the text after the last one, lower-cased, is allowed. */
  predicate AllowedFile(filename: string)
  {
    match LastIndexOf(filename, '.')
    case None => false
    case Some(k) => Lower(filename[k + 1..]) in AllowedExtensions
  }

  /** `k` is the position of the last '.' of `filename`. */
  predicate LastDot(filename: string, k: int)
  {
    0 <= k < |filename| && filename[k] == '.' && '.' !in filename[k + 1..]
  }

  lemma AllowedFileIff(filename: string)
    ensures AllowedFile(filename) <==>
      exists k :: LastDot(filename, k) && Lower(filename[k + 1..]) in AllowedExtensions
  {
    match LastIndexOf(filename, '.')
    case None =>
    case Some(k) =>
      LastIndexOfIff(filename, '.', k);
      assert LastDot(filename, k);
      forall k' | LastDot(filename, k') ensures k' == k {
        LastIndexOfIff(filename, '.', k');
      }
  }

  /** The name a slot's file is saved under: `f"{n}.jpg"`, whatever the upload was called. */
  function SlotFileName(n: nat): string
  {
    NatToString(n) + ".jpg"
  }

  /** Distinct slots have distinct files, so a slot is its file. */
  lemma SlotFileNameInjective(m: nat, n: nat)
    requires SlotFileName(m) == SlotFileName(n)
    ensures m == n
  {
    var a, b := NatToString(m), NatToString(n);
    assert |a| == |b|;
    assert a == SlotFileName(m)[..|a|] && b == SlotFileName(n)[..|b|];
    NatToStringInjective(m, n);
  }

  /** A slot's file name is itself an allowed image name, and it reads back as its slot. */
  lemma {:induction false} SlotFileNameRoundTrip(n: nat)
    ensures AllowedFile(SlotFileName(n))
    ensures exists k :: 0 <= k < |SlotFileName(n)| && SlotFileName(n)[k] == '.'
                        && ParseInt(SlotFileName(n)[..k]) == Some(n)
  {
    var f := SlotFileName(n);
    var d := NatToString(n);
    assert f[|d|] == '.' && f[|d| + 1..] == "jpg";
    assert LastIndexOf(f, '.') == Some(|d|) by {
      assert forall j :: |d| < j < |f| ==> f[j] != '.';
    }
    assert Lower("jpg") == "jpg";
    assert f[..|d|] == d;
    ParseIntOfNatToString(n);
  }

  // ---------------------------------------------------------------------
  // The slot space

  /** The smallest slot in lo..max that is not occupied, if there is one. */
  function FirstFreeFrom(occupied: set<int>, lo: int, max: int): (r: Option<int>)
    decreases max - lo
    ensures r.Some? ==> lo <= r.value <= max && r.value !in occupied
    ensures r.Some? ==> forall j :: lo <= j < r.value ==> j in occupied
    ensures r.None? <==> forall j :: lo <= j <= max ==> j in occupied
  {
    if lo > max then None
    else if lo !in occupied then Some(lo)
    else FirstFreeFrom(occupied, lo + 1, max)
  }

  /** `get_next_image_number`: the smallest free slot in 1..max, or None when all are taken. */
  function FirstFree(occupied: set<int>, max: int): Option<int>
  {
    FirstFreeFrom(occupied, 1, max)
  }

  /** The smallest free slot is the only slot that is free and has no free slot below it. */
  lemma FirstFreeUnique(occupied: set<int>, max: int, n: int)
    requires 1 <= n <= max && n !in occupied
    requires forall j :: 1 <= j < n ==> j in occupied
    ensures FirstFree(occupied, max) == Some(n)
  {
  }

  /** After slot m is freed, the next allocation takes m, unless a smaller slot was already free. */
  lemma DeleteThenFirstFree(occupied: set<int>, max: int, m: int)
    requires 1 <= m <= max && m in occupied
    ensures FirstFree(occupied - {m}, max) ==
      (match FirstFree(occupied, max)
       case Some(f) => if f < m then Some(f) else Some(m)
       case None => Some(m))
  {
    var after := occupied - {m};
    match FirstFree(occupied, max)
    case Some(f) =>
      if f < m {
        FirstFreeUnique(after, max, f);
      } else {
        FirstFreeUnique(after, max, m);
      }
    case None =>
      FirstFreeUnique(after, max, m);
  }

  /** The occupied slots of 1..hi. */
  ghost function SlotsInUse(occupied: set<int>, hi: int): set<int>
  {
    set n | n in occupied && 1 <= n <= hi
  }

  /** The occupied slots of 1..hi in ascending order (the folder probe loops). */
  function OccupiedSlots(occupied: set<int>, hi: int): (r: seq<int>)
    decreases hi
    ensures forall k :: 0 <= k < |r| ==> 1 <= r[k] <= hi && r[k] in occupied
    ensures forall n :: 1 <= n <= hi && n in occupied ==> n in r
    ensures forall i, j :: 0 <= i < j < |r| ==> r[i] < r[j]
  {
    if hi < 1 then []
    else OccupiedSlots(occupied, hi - 1) + (if hi in occupied then [hi] else [])
  }

  /** The ascending listing has one entry per occupied slot. */
  lemma {:induction false} OccupiedSlotsCount(occupied: set<int>, hi: int)
    ensures |OccupiedSlots(occupied, hi)| == |SlotsInUse(occupied, hi)|
    decreases hi
  {
    if hi < 1 {
      assert SlotsInUse(occupied, hi) == {};
    } else {
      OccupiedSlotsCount(occupied, hi - 1);
      var below, all := SlotsInUse(occupied, hi - 1), SlotsInUse(occupied, hi);
      var top: set<int> := if hi in occupied then {hi} else {};
      forall n ensures n in all <==> n in below + top {
        assert n in all <==> n in occupied && 1 <= n <= hi;
      }
      assert all == below + top;
      assert hi !in below;
      assert OccupiedSlots(occupied, hi) == OccupiedSlots(occupied, hi - 1) + (if hi in occupied then [hi] else []);
    }
  }

  /** `available_images[:10]`. */
  function Preview(available: seq<int>): (r: seq<int>)
    ensures |r| == if |available| < PreviewLength then |available| else PreviewLength
    ensures r == available[..|r|]
  {
    if |available| <= PreviewLength then available else available[..PreviewLength]
  }

  /** The preview lists the smallest occupied slots: every occupied slot it leaves out is larger. */
  lemma PreviewIsSmallest(occupied: set<int>, max: int, n: int)
    requires 1 <= n <= max && n in occupied
    requires n !in Preview(OccupiedSlots(occupied, max))
    ensures forall k :: 0 <= k < |Preview(OccupiedSlots(occupied, max))| ==>
              Preview(OccupiedSlots(occupied, max))[k] < n
  {
    var all := OccupiedSlots(occupied, max);
    var p := Preview(all);
    var i :| 0 <= i < |all| && all[i] == n;
    assert i >= |p|;
  }

  // ---------------------------------------------------------------------
  // Single upload

  /** Why an upload was refused; every one of them is a 400 response. */
  datatype UploadError =
    | NoFilePart            // no `file` part in the request
    | NoFileSelected        // the file's name is empty
    | TypeNotAllowed        // `allowed_file` fails
    | MaximumReached        // no free slot in 1..max
    | InvalidNumberFormat   // `int(number)` raised ValueError
    | NumberOutOfRange      // the chosen number is outside 1..max
    | NumberTaken(number: int)

  datatype UploadResult =
    | Uploaded(imageNumber: int, filename: string)
    | UploadRejected(error: UploadError)

  /**
   * `upload_jake_image` on a folder whose occupied slots are `occupied`:
   * `file` is the name of the `file` part, if any, and `number` the form
   * field `number`, if any.
   */
  function UploadOutcome(occupied: set<int>, max: int, file: Option<string>, number: Option<string>): UploadResult
  {
    if file.None? then UploadRejected(NoFilePart)
    else if file.value == "" then UploadRejected(NoFileSelected)
    else if !AllowedFile(file.value) then UploadRejected(TypeNotAllowed)
    else match FirstFree(occupied, max)
      case None => UploadRejected(MaximumReached)
      case Some(next) =>
        if number.Some? && number.value != "" then
          match ParseInt(number.value)
          case None => UploadRejected(InvalidNumberFormat)
          case Some(n) =>
            if !(1 <= n <= max) then UploadRejected(NumberOutOfRange)
            else if n in occupied then UploadRejected(NumberTaken(n))
            else Uploaded(n, SlotFileName(n))
        else Uploaded(next, SlotFileName(next))
  }

  /** A successful upload lands in a slot of 1..max that was free: the chosen one, or else the smallest free one. */
  lemma UploadTakesFreeSlot(occupied: set<int>, max: int, file: Option<string>, number: Option<string>)
    requires UploadOutcome(occupied, max, file, number).Uploaded?
    ensures var n := UploadOutcome(occupied, max, file, number).imageNumber;
      && 1 <= n <= max && n !in occupied
      && UploadOutcome(occupied, max, file, number).filename == SlotFileName(n)
      && file.Some? && file.value != "" && AllowedFile(file.value)
      && (number.Some? && number.value != "" ==> ParseInt(number.value) == Some(n))
      && (number.None? || number.value == "" ==> FirstFree(occupied, max) == Some(n))
  {
    assert file.Some? && file.value != "" && AllowedFile(file.value);
    var next := FirstFree(occupied, max).value;
    if number.Some? && number.value != "" {
      var n := ParseInt(number.value).value;
      assert 1 <= n <= max && n !in occupied;
      assert UploadOutcome(occupied, max, file, number) == Uploaded(n, SlotFileName(n));
    } else {
      assert UploadOutcome(occupied, max, file, number) == Uploaded(next, SlotFileName(next));
    }
  }

  /**
   * The checks run in the source's order: the file part, its name, its type,
   * then a full folder (whatever number was asked for), then the number's
   * format, its range and its slot.
   */
  lemma UploadRejectionOrder(occupied: set<int>, max: int, name: string, number: Option<string>)
    ensures UploadOutcome(occupied, max, None, number) == UploadRejected(NoFilePart)
    ensures UploadOutcome(occupied, max, Some(""), number) == UploadRejected(NoFileSelected)
    ensures name != "" && !AllowedFile(name) ==>
              UploadOutcome(occupied, max, Some(name), number) == UploadRejected(TypeNotAllowed)
    ensures name != "" && AllowedFile(name) && (forall j :: 1 <= j <= max ==> j in occupied) ==>
              UploadOutcome(occupied, max, Some(name), number) == UploadRejected(MaximumReached)
    ensures name != "" && AllowedFile(name) && FirstFree(occupied, max).Some?
            && number.Some? && number.value != "" ==>
              UploadOutcome(occupied, max, Some(name), number) ==
                match ParseInt(number.value)
                case None => UploadRejected(InvalidNumberFormat)
                case Some(n) =>
                  if n < 1 || n > max then UploadRejected(NumberOutOfRange)
                  else if n in occupied then UploadRejected(NumberTaken(n))
                  else Uploaded(n, SlotFileName(n))
    ensures name != "" && AllowedFile(name) && FirstFree(occupied, max).Some?
            && (number.None? || number == Some("")) ==>
              UploadOutcome(occupied, max, Some(name), number) ==
                Uploaded(FirstFree(occupied, max).value, SlotFileName(FirstFree(occupied, max).value))
  {
  }

  // ---------------------------------------------------------------------
  // Batch upload

  datatype FailReason = FailTypeNotAllowed | FailMaximumReached

  datatype UploadedFile = UploadedFile(originalName: string, savedAs: string, imageNumber: int)

  datatype FailedFile = FailedFile(filename: string, reason: FailReason)

  /** The folder and the two reports, part-way through a batch. */
  datatype BatchState = BatchState(occupied: set<int>, uploaded: seq<UploadedFile>, failed: seq<FailedFile>)

  datatype BatchError = NoFilesPart | NoFilesSelected

  datatype BatchResult =
    | BatchRejected(error: BatchError)
    | BatchCompleted(uploaded: seq<UploadedFile>, failed: seq<FailedFile>, totalUploaded: nat, totalFailed: nat)

  /** One iteration of the loop of `upload_multiple_images`, on a file called `name`. */
  function BatchStep(max: int, st: BatchState, name: string): BatchState
  {
    if name == "" then st
    else if !AllowedFile(name) then st.(failed := st.failed + [FailedFile(name, FailTypeNotAllowed)])
    else match FirstFree(st.occupied, max)
      case None => st.(failed := st.failed + [FailedFile(name, FailMaximumReached)])
      case Some(n) =>
        BatchState(st.occupied + {n}, st.uploaded + [UploadedFile(name, SlotFileName(n), n)], st.failed)
  }

  /** The loop over `names`, in input order. */
  function BatchRun(max: int, st: BatchState, names: seq<string>): BatchState
    decreases |names|
  {
    if names == [] then st
    else BatchStep(max, BatchRun(max, st, names[..|names| - 1]), names[|names| - 1])
  }

  /** `upload_multiple_images`: `files` holds the names of the `files` parts, if that key is present. */
  function BatchOutcome(occupied: set<int>, max: int, files: Option<seq<string>>): BatchResult
  {
    if files.None? then BatchRejected(NoFilesPart)
    else if forall i :: 0 <= i < |files.value| ==> files.value[i] == "" then BatchRejected(NoFilesSelected)
    else
      var st := BatchRun(max, BatchState(occupied, [], []), files.value);
      BatchCompleted(st.uploaded, st.failed, |st.uploaded|, |st.failed|)
  }

  /** The names that are not empty, in order. */
  function NonEmpty(names: seq<string>): seq<string>
  {
    if names == [] then []
    else NonEmpty(names[..|names| - 1]) + (if names[|names| - 1] == "" then [] else [names[|names| - 1]])
  }

  function UploadedNames(u: seq<UploadedFile>): seq<string>
  {
    if u == [] then [] else UploadedNames(u[..|u| - 1]) + [u[|u| - 1].originalName]
  }

  function FailedNames(f: seq<FailedFile>): seq<string>
  {
    if f == [] then [] else FailedNames(f[..|f| - 1]) + [f[|f| - 1].filename]
  }

  /** The slot numbers of an upload report. */
  function NumberSet(u: seq<UploadedFile>): set<int>
  {
    if u == [] then {} else NumberSet(u[..|u| - 1]) + {u[|u| - 1].imageNumber}
  }

  lemma UploadedNamesAppend(u: seq<UploadedFile>, x: UploadedFile)
    ensures UploadedNames(u + [x]) == UploadedNames(u) + [x.originalName]
    ensures NumberSet(u + [x]) == NumberSet(u) + {x.imageNumber}
  {
    assert (u + [x])[..|u|] == u;
  }

  lemma FailedNamesAppend(f: seq<FailedFile>, x: FailedFile)
    ensures FailedNames(f + [x]) == FailedNames(f) + [x.filename]
  {
    assert (f + [x])[..|f|] == f;
  }

  /** The names in the two reports, as a multiset. */
  function Reported(st: BatchState): multiset<string>
  {
    multiset(UploadedNames(st.uploaded)) + multiset(FailedNames(st.failed))
  }

  /**
   * Uploaded files have allowed names, a failure is a type failure exactly
   * when the name is not allowed, and a "maximum reached" failure is only
   * ever reported once every slot of 1..max is taken.
   */
  ghost predicate ReasonsSound(max: int, st: BatchState)
  {
    && (forall k :: 0 <= k < |st.uploaded| ==> AllowedFile(st.uploaded[k].originalName))
    && (forall k :: 0 <= k < |st.failed| ==>
          (st.failed[k].reason == FailTypeNotAllowed <==> !AllowedFile(st.failed[k].filename)))
    && ((exists k :: 0 <= k < |st.failed| && st.failed[k].reason == FailMaximumReached) ==>
          forall j :: 1 <= j <= max ==> j in st.occupied)
  }

  /** One file: its name joins exactly one report, unless it is empty. */
  lemma BatchStepReports(max: int, st: BatchState, name: string)
    ensures var next := BatchStep(max, st, name);
      && Reported(next) == Reported(st) + (if name == "" then multiset{} else multiset{name})
      && |next.uploaded| + |next.failed| == |st.uploaded| + |st.failed| + (if name == "" then 0 else 1)
  {
    var next := BatchStep(max, st, name);
    if name == "" {
    } else if !AllowedFile(name) {
      var x := FailedFile(name, FailTypeNotAllowed);
      assert next == st.(failed := st.failed + [x]);
      FailedNamesAppend(st.failed, x);
    } else if FirstFree(st.occupied, max).None? {
      var x := FailedFile(name, FailMaximumReached);
      assert next == st.(failed := st.failed + [x]);
      FailedNamesAppend(st.failed, x);
    } else {
      var n := FirstFree(st.occupied, max).value;
      var x := UploadedFile(name, SlotFileName(n), n);
      assert next == BatchState(st.occupied + {n}, st.uploaded + [x], st.failed);
      UploadedNamesAppend(st.uploaded, x);
    }
  }

  lemma BatchStepReasons(max: int, st: BatchState, name: string)
    requires ReasonsSound(max, st)
    ensures ReasonsSound(max, BatchStep(max, st, name))
  {
  }

  /**
   * Every non-empty name ends up in exactly one of the two reports, and the
   * empty names in neither: the reported names are, as a multiset, the
   * non-empty input names, so the two totals add up to their number.
   */
  lemma {:induction false} BatchAccounting(max: int, occupied: set<int>, names: seq<string>)
    ensures var st := BatchRun(max, BatchState(occupied, [], []), names);
      && Reported(st) == multiset(NonEmpty(names))
      && |st.uploaded| + |st.failed| == |NonEmpty(names)|
      && ReasonsSound(max, st)
    decreases |names|
  {
    if names == [] {
      assert UploadedNames([]) == [] && FailedNames([]) == [];
    } else {
      var init := names[..|names| - 1];
      var name := names[|names| - 1];
      BatchAccounting(max, occupied, init);
      var st := BatchRun(max, BatchState(occupied, [], []), init);
      BatchStepReports(max, st, name);
      BatchStepReasons(max, st, name);
    }
  }

  /** Each upload of a batch took the smallest slot free at the moment its file was processed. */
  ghost predicate AllocatedInOrder(occupied: set<int>, max: int, u: seq<UploadedFile>)
  {
    forall k :: 0 <= k < |u| ==>
      && FirstFree(occupied + NumberSet(u[..k]), max) == Some(u[k].imageNumber)
      && u[k].savedAs == SlotFileName(u[k].imageNumber)
  }

  /** The state a batch keeps: the folder is what it was plus the slots uploaded so far. */
  ghost predicate BatchInvariant(occupied: set<int>, max: int, st: BatchState)
  {
    st.occupied == occupied + NumberSet(st.uploaded) && AllocatedInOrder(occupied, max, st.uploaded)
  }

  lemma BatchStepAllocation(max: int, occupied: set<int>, st: BatchState, name: string)
    requires BatchInvariant(occupied, max, st)
    ensures BatchInvariant(occupied, max, BatchStep(max, st, name))
  {
    if name != "" && AllowedFile(name) && FirstFree(st.occupied, max).Some? {
      var n := FirstFree(st.occupied, max).value;
      var x := UploadedFile(name, SlotFileName(n), n);
      UploadedNamesAppend(st.uploaded, x);
      var u := st.uploaded + [x];
      assert u[..|st.uploaded|] == st.uploaded;
      forall k | 0 <= k < |st.uploaded| ensures u[..k] == st.uploaded[..k] && u[k] == st.uploaded[k] {
      }
    }
  }

  lemma {:induction false} BatchAllocation(max: int, occupied: set<int>, names: seq<string>)
    ensures BatchInvariant(occupied, max, BatchRun(max, BatchState(occupied, [], []), names))
    decreases |names|
  {
    if names == [] {
      assert NumberSet([]) == {};
    } else {
      var init := names[..|names| - 1];
      BatchAllocation(max, occupied, init);
      BatchStepAllocation(max, occupied, BatchRun(max, BatchState(occupied, [], []), init), names[|names| - 1]);
    }
  }

  lemma {:induction false} NumberSetPrefix(u: seq<UploadedFile>, i: nat, j: nat)
    requires i < j <= |u|
    ensures NumberSet(u[..i]) <= NumberSet(u[..j])
    ensures u[i].imageNumber in NumberSet(u[..j])
    decreases j - i
  {
    assert u[..j][..j - 1] == u[..j - 1];
    if i < j - 1 {
      NumberSetPrefix(u, i, j - 1);
    } else {
      assert u[..j][j - 1] == u[i];
    }
  }

  /** Once the smallest free slot of `a` is taken, the smallest free slot of any larger set lies above it. */
  lemma LaterFreeSlotIsLarger(a: set<int>, b: set<int>, max: int, m: int, n: int)
    requires a <= b && m in b
    requires FirstFree(a, max) == Some(m) && FirstFree(b, max) == Some(n)
    ensures m < n
  {
  }

  /** Slots handed out in order are distinct (indeed ascending), were free at the start, and lie in 1..max. */
  lemma AllocatedSlotsFresh(occupied: set<int>, max: int, u: seq<UploadedFile>)
    requires AllocatedInOrder(occupied, max, u)
    ensures forall k :: 0 <= k < |u| ==> 1 <= u[k].imageNumber <= max && u[k].imageNumber !in occupied
    ensures forall i, j :: 0 <= i < j < |u| ==> u[i].imageNumber < u[j].imageNumber
  {
    forall k | 0 <= k < |u| ensures 1 <= u[k].imageNumber <= max && u[k].imageNumber !in occupied {
      assert FirstFree(occupied + NumberSet(u[..k]), max) == Some(u[k].imageNumber);
    }
    forall i, j | 0 <= i < j < |u| ensures u[i].imageNumber < u[j].imageNumber {
      NumberSetPrefix(u, i, j);
      LaterFreeSlotIsLarger(occupied + NumberSet(u[..i]), occupied + NumberSet(u[..j]), max,
                            u[i].imageNumber, u[j].imageNumber);
    }
  }

  /** The slots of a batch are distinct (indeed ascending), were free before it, and lie in 1..max. */
  lemma BatchSlotsFresh(max: int, occupied: set<int>, names: seq<string>)
    ensures var st := BatchRun(max, BatchState(occupied, [], []), names);
      && st.occupied == occupied + NumberSet(st.uploaded)
      && (forall k :: 0 <= k < |st.uploaded| ==>
            1 <= st.uploaded[k].imageNumber <= max && st.uploaded[k].imageNumber !in occupied)
      && (forall i, j :: 0 <= i < j < |st.uploaded| ==>
            st.uploaded[i].imageNumber < st.uploaded[j].imageNumber)
  {
    BatchAllocation(max, occupied, names);
    AllocatedSlotsFresh(occupied, max, BatchRun(max, BatchState(occupied, [], []), names).uploaded);
  }

  // ---------------------------------------------------------------------
  // The folder

  datatype RandomResult =
    | RandomImage(imageNumber: int, filename: string)
    | NoImages        // 404: no slot of 1..max is occupied
    | RandomFailed    // 500: `random.randint(1, max)` raised because max < 1

  datatype DeleteResult =
    | Deleted(deletedNumber: int)
    | DeleteOutOfRange   // 400
    | DeleteNotFound     // 404

  /** A client that asks for the free slot n, written in decimal, gets exactly slot n. */
  lemma UploadRequestedNumber(occupied: set<int>, max: int, name: string, n: nat)
    requires name != "" && AllowedFile(name) && 1 <= n <= max && n !in occupied
    ensures UploadOutcome(occupied, max, Some(name), Some(NatToString(n))) == Uploaded(n, SlotFileName(n))
  {
    ParseIntOfNatToString(n);
  }

  /** `delete_jake_image` on a folder whose occupied slots are `occupied`: the response and the new folder. */
  function DeleteOutcome(occupied: set<int>, max: int, n: int): (r: (DeleteResult, set<int>))
    ensures r.0.Deleted? <==> 1 <= n <= max && n in occupied
    ensures r.0.Deleted? ==> r.0.deletedNumber == n && r.1 == occupied - {n} && n !in r.1
    ensures !r.0.Deleted? ==> r.1 == occupied
  {
    if !(1 <= n <= max) then (DeleteOutOfRange, occupied)
    else if n !in occupied then (DeleteNotFound, occupied)
    else (Deleted(n), occupied - {n})
  }

  /**
   * Deleting the image an upload just saved succeeds and restores the folder,
   * where the same upload then gives the same answer.  After an upload
   * without a number the next number lies above the one taken, and after the
   * delete it is that number again.
   */
  lemma UploadDeleteReuse(occupied: set<int>, max: int, name: string, number: Option<string>)
    requires UploadOutcome(occupied, max, Some(name), number).Uploaded?
    ensures var n := UploadOutcome(occupied, max, Some(name), number).imageNumber;
      var d := DeleteOutcome(occupied + {n}, max, n);
      && d.0 == Deleted(n) && d.1 == occupied
      && UploadOutcome(d.1, max, Some(name), number) == UploadOutcome(occupied, max, Some(name), number)
    ensures var n := UploadOutcome(occupied, max, Some(name), number).imageNumber;
      (number.None? || number == Some("")) ==>
        && (FirstFree(occupied + {n}, max).None? || FirstFree(occupied + {n}, max).value > n)
        && FirstFree(DeleteOutcome(occupied + {n}, max, n).1, max) == Some(n)
  {
    var n := UploadOutcome(occupied, max, Some(name), number).imageNumber;
    UploadTakesFreeSlot(occupied, max, Some(name), number);
    assert (occupied + {n}) - {n} == occupied;
    if number.None? || number == Some("") {
      var after := FirstFree(occupied + {n}, max);
      if after.Some? {
        LaterFreeSlotIsLarger(occupied, occupied + {n}, max, n, after.value);
      }
    }
  }

  datatype JakeStats = JakeStats(totalImages: nat, maxPossible: int, availableNumbers: seq<int>)

  class ImageFolder {
    /** The numbers n for which `{n}.jpg` exists in the folder. */
    var occupied: set<int>
    /** `MAX_IMAGE_NUMBER`. */
    const maxImageNumber: int

    constructor (maxImageNumber: int, occupied: set<int>)
      ensures this.maxImageNumber == maxImageNumber && this.occupied == occupied
    {
      this.maxImageNumber := maxImageNumber;
      this.occupied := occupied;
    }

    /** `get_next_image_number`: probes `1.jpg`, `2.jpg`, ... up to the maximum. */
    method NextImageNumber() returns (r: Option<int>)
      ensures r == FirstFree(occupied, maxImageNumber)
    {
      var i := 1;
      while i <= maxImageNumber
        invariant 1 <= i
        invariant FirstFree(occupied, maxImageNumber) == FirstFreeFrom(occupied, i, maxImageNumber)
        decreases maxImageNumber - i
      {
        if i !in occupied {
          return Some(i);
        }
        i := i + 1;
      }
      return None;
    }

    /** The probe loop that lists the occupied slots in ascending order. */
    method AvailableImages() returns (available: seq<int>)
      ensures available == OccupiedSlots(occupied, maxImageNumber)
    {
      available := [];
      var i := 1;
      while i <= maxImageNumber
        invariant 1 <= i && (i <= maxImageNumber + 1 || i == 1)
        invariant available == OccupiedSlots(occupied, i - 1)
        decreases maxImageNumber - i
      {
        if i in occupied {
          available := available + [i];
        }
        i := i + 1;
      }
    }

    /**
     * `get_random_jake`: `guess` is what `random.randint(1, max)` drew, and
     * `pick` selects what `random.choice` returns from the listing.
     */
    method RandomJake(guess: int, pick: nat) returns (r: RandomResult)
      requires 1 <= maxImageNumber ==> 1 <= guess <= maxImageNumber
      ensures r == RandomFailed <==> maxImageNumber < 1
      ensures r == NoImages <==> 1 <= maxImageNumber && SlotsInUse(occupied, maxImageNumber) == {}
      ensures r.RandomImage? ==>
                1 <= r.imageNumber <= maxImageNumber && r.imageNumber in occupied
                && r.filename == SlotFileName(r.imageNumber)
      ensures 1 <= maxImageNumber && guess in occupied ==> r == RandomImage(guess, SlotFileName(guess))
      ensures 1 <= maxImageNumber && guess !in occupied && r.RandomImage? ==>
                var a := OccupiedSlots(occupied, maxImageNumber); r.imageNumber == a[pick % |a|]
    {
      if maxImageNumber < 1 {
        return RandomFailed;
      }
      if guess in occupied {
        assert guess in SlotsInUse(occupied, maxImageNumber);
        return RandomImage(guess, SlotFileName(guess));
      }
      var available := AvailableImages();
      if available == [] {
        assert SlotsInUse(occupied, maxImageNumber) == {} by {
          OccupiedSlotsCount(occupied, maxImageNumber);
        }
        return NoImages;
      }
      assert available[0] in SlotsInUse(occupied, maxImageNumber);
      var n := available[pick % |available|];
      r := RandomImage(n, SlotFileName(n));
    }

    /** `upload_jake_image`: `file` is the name of the `file` part, `number` the form field. */
    method UploadJake(file: Option<string>, number: Option<string>) returns (r: UploadResult)
      modifies this
      ensures r == UploadOutcome(old(occupied), maxImageNumber, file, number)
      ensures occupied == if r.Uploaded? then old(occupied) + {r.imageNumber} else old(occupied)
    {
      if file.None? {
        return UploadRejected(NoFilePart);
      }
      var name := file.value;
      if name == "" {
        return UploadRejected(NoFileSelected);
      }
      if !AllowedFile(name) {
        return UploadRejected(TypeNotAllowed);
      }
      var next := NextImageNumber();
      if next.None? {
        return UploadRejected(MaximumReached);
      }
      var slot := next.value;
      if number.Some? && number.value != "" {
        var parsed := ParseInt(number.value);
        if parsed.None? {
          return UploadRejected(InvalidNumberFormat);
        }
        var custom := parsed.value;
        if !(1 <= custom <= maxImageNumber) {
          return UploadRejected(NumberOutOfRange);
        }
        if custom in occupied {
          return UploadRejected(NumberTaken(custom));
        }
        slot := custom;
      }
      occupied := occupied + {slot};
      r := Uploaded(slot, SlotFileName(slot));
    }

    /** `upload_multiple_images`: `files` holds the names of the `files` parts, if that key is present. */
    method UploadMultiple(files: Option<seq<string>>) returns (r: BatchResult)
      modifies this
      ensures r == BatchOutcome(old(occupied), maxImageNumber, files)
      ensures occupied == if r.BatchCompleted?
                          then BatchRun(maxImageNumber, BatchState(old(occupied), [], []), files.value).occupied
                          else old(occupied)
    {
      if files.None? {
        return BatchRejected(NoFilesPart);
      }
      var names := files.value;
      if forall i :: 0 <= i < |names| ==> names[i] == "" {
        return BatchRejected(NoFilesSelected);
      }
      var uploaded: seq<UploadedFile> := [];
      var failed: seq<FailedFile> := [];
      var i := 0;
      while i < |names|
        invariant 0 <= i <= |names|
        invariant BatchState(occupied, uploaded, failed)
                  == BatchRun(maxImageNumber, BatchState(old(occupied), [], []), names[..i])
      {
        var name := names[i];
        assert names[..i + 1][..i] == names[..i];
        if name == "" {
          i := i + 1;
          continue;
        }
        if !AllowedFile(name) {
          failed := failed + [FailedFile(name, FailTypeNotAllowed)];
          i := i + 1;
          continue;
        }
        var next := NextImageNumber();
        if next.None? {
          failed := failed + [FailedFile(name, FailMaximumReached)];
          i := i + 1;
          continue;
        }
        var n := next.value;
        occupied := occupied + {n};
        uploaded := uploaded + [UploadedFile(name, SlotFileName(n), n)];
        i := i + 1;
      }
      assert names[..|names|] == names;
      r := BatchCompleted(uploaded, failed, |uploaded|, |failed|);
    }

    /** `delete_jake_image`. */
    method DeleteJake(imageNumber: int) returns (r: DeleteResult)
      modifies this
      ensures (r, occupied) == DeleteOutcome(old(occupied), maxImageNumber, imageNumber)
      ensures !(1 <= imageNumber <= maxImageNumber) ==>
                r == DeleteOutOfRange && occupied == old(occupied)
      ensures 1 <= imageNumber <= maxImageNumber && imageNumber !in old(occupied) ==>
                r == DeleteNotFound && occupied == old(occupied)
      ensures 1 <= imageNumber <= maxImageNumber && imageNumber in old(occupied) ==>
                r == Deleted(imageNumber) && occupied == old(occupied) - {imageNumber}
    {
      if !(1 <= imageNumber <= maxImageNumber) {
        return DeleteOutOfRange;
      }
      if imageNumber !in occupied {
        return DeleteNotFound;
      }
      occupied := occupied - {imageNumber};
      r := Deleted(imageNumber);
    }

    /** `get_jake_stats`. */
    method GetJakeStats() returns (r: JakeStats)
      ensures r.totalImages == |SlotsInUse(occupied, maxImageNumber)|
      ensures r.maxPossible == maxImageNumber
      ensures r.availableNumbers == Preview(OccupiedSlots(occupied, maxImageNumber))
    {
      var available := AvailableImages();
      OccupiedSlotsCount(occupied, maxImageNumber);
      r := JakeStats(|available|, maxImageNumber, Preview(available));
    }
  }
}
