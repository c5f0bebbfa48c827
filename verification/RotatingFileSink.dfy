/** Log file rotation, src/include/spdlog/sinks/rotating_file_sink-inl.h.

    A file is known by its index: 0 is the file being written, and a higher index is an older one.
    `Sink` is the sink together with the directory it writes into. */
module RotatingFileSinks {
  import opened Options

  type byte = bv8
  type Files = map<nat, seq<byte>>

  const MAX_FILES := 200000

  /** The directory after a rotation that keeps `n` old files. */
  function Shifted(files: Files, n: nat): (r: Files) {
    map i | i in files.Keys + (set j | j in files.Keys :: j + 1) + {0} &&
            (i == 0 || Moved(files, n, i) || Stays(files, n, i))
      :: if i == 0 then [] else if Moved(files, n, i) then files[i - 1] else files[i]
  }

  /** Index `i` receives the next younger file. */
  predicate Moved(files: Files, n: nat, i: nat) {
    1 <= i <= n && i - 1 in files
  }

  /** Index `i` keeps its file: it has no younger one to receive and is not moved up itself. */
  predicate Stays(files: Files, n: nat, i: nat) {
    i in files && i >= n && !Moved(files, n, i)
  }

  /** The directory after a rotation that is given up at target `at`, for which both renames fail: higher
      indices are done, the target is gone, lower ones are as they were, and the file being written is
      truncated. */
  function GivenUp(files: Files, n: nat, at: nat): (r: Files) {
    var r := Shifted(files, n);
    map i | i in files.Keys + r.Keys && (i == 0 || (i < at && i in files) || (at < i && i in r))
      :: if i == 0 then [] else if i < at then files[i] else r[i]
  }

  /** `history` is what was there at the start and everything written since, but for what a rotation that
      was given up has truncated.  `floor` is the least number of old files ever asked for, `ceiling` the
      largest such number or initial index, `bound` the largest of all size limits, message lengths and
      initial file lengths so far. */
  datatype Sink = Sink(files: Files, current: nat, maxSize: nat, maxFiles: nat,
                       history: seq<byte>, floor: nat, ceiling: nat, bound: nat) {

    /** `rotate_` when every rename works. */
    function Rotate(): Sink {
      this.(files := Shifted(files, maxFiles))
    }

    /** `rotate_` when the rename to `at` fails twice. */
    function GiveUp(at: nat): Sink
      requires 0 in files
    {
      this.(files := GivenUp(files, maxFiles, at), current := 0,
            history := history[..if |files[0]| <= |history| then |history| - |files[0]| else 0])
    }

    predicate NeedsRotation(msg: seq<byte>)
      requires 0 in files
    {
      current + |msg| > maxSize && |files[0]| > 0
    }

    function Log(msg: seq<byte>): Sink
      requires 0 in files
    {
      var s := if NeedsRotation(msg) then Rotate() else this;
      s.(files := s.files[0 := s.files[0] + msg],
         current := if NeedsRotation(msg) then |msg| else current + |msg|,
         history := history + msg,
         bound := Max(bound, |msg|))
    }

    function SetMaxSize(n: nat): Sink {
      this.(maxSize := n, bound := Max(bound, n))
    }

    function SetMaxFiles(n: nat): Sink {
      this.(maxFiles := n, floor := Min(floor, n), ceiling := Max(ceiling, n))
    }
  }

  function Max(a: nat, b: nat): nat {
    if a >= b then a else b
  }

  function Min(a: nat, b: nat): nat {
    if a <= b then a else b
  }

  // ---------------------------------------------------------------- what is retained

  /** The first `k` files from the oldest to the one being written. */
  function Joined(files: Files, k: nat): seq<byte>
    requires forall i: nat :: i < k ==> i in files
  {
    if k == 0 then [] else files[k - 1] + Joined(files, k - 1)
  }

  ghost predicate IsSuffix(s: seq<byte>, whole: seq<byte>) {
    |s| <= |whole| && whole[|whole| - |s|..] == s
  }

  function Content(files: Files, i: nat): seq<byte> {
    if i in files then files[i] else []
  }

  /** The old files up to index `n`, from the oldest on, whatever gaps there are. */
  function Older(files: Files, n: nat): seq<byte> {
    if n == 0 then [] else Content(files, n) + Older(files, n - 1)
  }

  /** All files up to index `n`, from the oldest to the one being written. */
  function Retained(files: Files, n: nat): seq<byte> {
    Older(files, n) + Content(files, 0)
  }

  /** What holds of any directory, after any operations, with renames that work or fail: the files up to
      the least limit, joined from oldest to newest, are the end of the history, and no file is longer
      than the largest limit or message or has a higher index than was ever asked for. */
  ghost predicate SinkInv(s: Sink) {
    && s.floor <= s.maxFiles <= s.ceiling
    && s.maxSize <= s.bound
    && 0 in s.files && |s.files[0]| <= s.current
    && (forall i :: i in s.files ==> i <= s.ceiling && |s.files[i]| <= s.bound)
    && IsSuffix(Retained(s.files, s.floor), s.history)
  }

  /** Up to index `floor` the `k` files are numbered without gaps, and joined from oldest to newest
      they are the end of the history. */
  ghost predicate KeepsSuffix(files: Files, floor: nat, history: seq<byte>, k: nat) {
    && 1 <= k <= floor + 1
    && (forall i: nat :: i <= floor ==> (i in files <==> i < k))
    && IsSuffix(Joined(files, k), history)
  }

  /** Renaming every file one up and starting an empty one leaves the joined bytes as they were. */
  lemma {:induction false} JoinedShift(a: Files, b: Files, k: nat)
    requires forall i: nat :: i < k ==> i in a
    requires forall i: nat :: 1 <= i <= k ==> i in b && i - 1 in a && b[i] == a[i - 1]
    requires 0 in b && b[0] == []
    ensures forall i: nat :: i <= k ==> i in b
    ensures Joined(b, k + 1) == Joined(a, k)
  {
    if k == 0 {
      assert Joined(b, 1) == b[0] + Joined(b, 0);
    } else {
      JoinedShift(a, b, k - 1);
      assert b[k] == a[k - 1];
      assert Joined(b, k + 1) == b[k] + Joined(b, k);
    }
  }

  /** Appending to the file being written appends to the joined bytes. */
  lemma {:induction false} JoinedAppend(a: Files, k: nat, msg: seq<byte>)
    requires k >= 1 && forall i: nat :: i < k ==> i in a
    ensures Joined(a[0 := a[0] + msg], k) == Joined(a, k) + msg
  {
    var b := a[0 := a[0] + msg];
    if k == 1 {
      assert Joined(b, 1) == b[0] + Joined(b, 0);
      assert Joined(a, 1) == a[0] + Joined(a, 0);
    } else {
      JoinedAppend(a, k - 1, msg);
      assert b[k - 1] == a[k - 1];
      assert a[k - 1] + (Joined(a, k - 1) + msg) == a[k - 1] + Joined(a, k - 1) + msg;
    }
  }

  lemma SuffixTail(whole: seq<byte>, first: seq<byte>, rest: seq<byte>)
    requires IsSuffix(first + rest, whole)
    ensures IsSuffix(rest, whole)
  {
    var w := whole[|whole| - |first + rest|..];
    assert w[|first|..] == rest;
  }

  lemma SuffixAppend(s: seq<byte>, whole: seq<byte>, more: seq<byte>)
    requires IsSuffix(s, whole)
    ensures IsSuffix(s + more, whole + more)
  {
    assert whole == whole[..|whole| - |s|] + s;
    assert whole + more == whole[..|whole| - |s|] + (s + more);
  }

  lemma ShiftedIndices(files: Files, n: nat, floor: nat, k: nat)
    requires 1 <= k <= floor + 1 && floor <= n
    requires forall i: nat :: i <= floor ==> (i in files <==> i < k)
    ensures forall i: nat :: i <= floor ==> (i in Shifted(files, n) <==> i <= k)
    ensures forall i: nat :: 1 <= i <= k && i <= floor ==> Shifted(files, n)[i] == files[i - 1]
    ensures 0 in Shifted(files, n) && Shifted(files, n)[0] == []
  {
    forall i: nat | 0 < i <= floor
      ensures i in Shifted(files, n) <==> i <= k
      ensures i <= k ==> Shifted(files, n)[i] == files[i - 1]
    {
      assert Moved(files, n, i) <==> i - 1 < k;
    }
  }

  lemma ShiftKeepsSuffix(files: Files, n: nat, floor: nat, history: seq<byte>, k: nat)
    requires floor <= n && KeepsSuffix(files, floor, history, k)
    ensures KeepsSuffix(Shifted(files, n), floor, history, Min(k, floor) + 1)
  {
    hide Shifted, Moved;
    var r, m := Shifted(files, n), Min(k, floor);
    ShiftedIndices(files, n, floor, k);
    JoinedShift(files, r, m);
    if k > floor {
      SuffixTail(history, files[k - 1], Joined(files, k - 1));
    }
  }

  // ---------------------------------------------------------------- what every operation keeps

  lemma {:induction false} OlderSuffix(files: Files, m: nat, n: nat)
    requires m <= n
    ensures IsSuffix(Older(files, m), Older(files, n))
  {
    if m < n {
      OlderSuffix(files, m, n - 1);
      SuffixOfLonger(Older(files, m), Content(files, n), Older(files, n - 1));
    }
  }

  lemma SuffixOfLonger(s: seq<byte>, first: seq<byte>, rest: seq<byte>)
    requires IsSuffix(s, rest)
    ensures IsSuffix(s, first + rest)
  {
    assert (first + rest)[|first + rest| - |s|..] == rest[|rest| - |s|..];
  }

  lemma SuffixTrans(a: seq<byte>, b: seq<byte>, c: seq<byte>)
    requires IsSuffix(a, b) && IsSuffix(b, c)
    ensures IsSuffix(a, c)
  {
    assert c[|c| - |a|..] == c[|c| - |b|..][|b| - |a|..];
  }

  lemma RetainedSuffix(files: Files, m: nat, n: nat)
    requires m <= n
    ensures IsSuffix(Retained(files, m), Retained(files, n))
  {
    OlderSuffix(files, m, n);
    SuffixAppend(Older(files, m), Older(files, n), Content(files, 0));
  }

  lemma ShiftedContent(files: Files, n: nat, i: nat)
    requires 1 <= i <= n
    ensures Content(Shifted(files, n), i) ==
            if i < n || i - 1 in files then Content(files, i - 1) else Content(files, i)
  {
  }

  /** Below the last target every file is where the next younger one was. */
  lemma {:induction false} OlderShifted(files: Files, n: nat, m: nat)
    requires 1 <= m < n
    ensures Older(Shifted(files, n), m) == Retained(files, m - 1)
  {
    hide Shifted, Content;
    ShiftedContent(files, n, m);
    if m == 1 {
      OlderOne(Shifted(files, n));
      assert [] + Content(files, 0) == Content(files, 0);
    } else {
      OlderShifted(files, n, m - 1);
      assert Content(files, m - 1) + (Older(files, m - 2) + Content(files, 0)) == Retained(files, m - 1);
    }
  }

  lemma OlderOne(files: Files)
    ensures Older(files, 1) == Content(files, 1)
  {
    assert Content(files, 1) + [] == Content(files, 1);
  }

  /** A rotation drops at most the oldest file. */
  lemma RetainedShifted(files: Files, n: nat, m: nat)
    requires m <= n
    ensures IsSuffix(Retained(Shifted(files, n), m), Retained(files, m))
  {
    var r := Shifted(files, n);
    assert Content(r, 0) == [];
    hide Shifted, Content, IsSuffix;
    assert Retained(r, m) == Older(r, m);
    if m == 0 {
      EmptySuffix(Retained(files, 0));
    } else if m < n {
      OlderShifted(files, n, m);
      RetainedSuffix(files, m - 1, m);
    } else {
      TopShifted(files, n);
    }
  }

  lemma EmptySuffix(whole: seq<byte>)
    ensures IsSuffix([], whole)
  {
  }

  lemma TopShifted(files: Files, n: nat)
    requires n >= 1
    ensures IsSuffix(Older(Shifted(files, n), n), Retained(files, n))
  {
    var r := Shifted(files, n);
    ShiftedContent(files, n, n);
    if n > 1 {
      OlderShifted(files, n, n - 1);
    }
    if n - 1 in files {
      TopMoves(files, n, r);
    } else {
      TopStays(files, n, r);
    }
  }

  lemma TopMoves(files: Files, n: nat, r: Files)
    requires n >= 1 && Content(r, n) == Content(files, n - 1)
    requires n > 1 ==> Older(r, n - 1) == Retained(files, n - 2)
    ensures IsSuffix(Older(r, n), Retained(files, n))
  {
    RetainedSuffix(files, n - 1, n);
    if n == 1 {
      OlderOne(r);
      assert [] + Content(files, 0) == Content(files, 0);
    } else {
      assert Content(files, n - 1) + (Older(files, n - 2) + Content(files, 0)) == Retained(files, n - 1);
    }
  }

  lemma TopStays(files: Files, n: nat, r: Files)
    requires n >= 1 && n - 1 !in files && Content(r, n) == Content(files, n)
    requires n > 1 ==> Older(r, n - 1) == Retained(files, n - 2)
    ensures Older(r, n) == Retained(files, n)
  {
    if n == 1 {
      OlderOne(r);
      OlderOne(files);
    } else {
      assert Older(files, n - 1) == [] + Older(files, n - 2) == Older(files, n - 2);
      assert Content(files, n) + (Older(files, n - 2) + Content(files, 0)) == Retained(files, n);
    }
  }

  lemma {:induction false} OlderWritten(files: Files, n: nat, content: seq<byte>)
    ensures Older(files[0 := content], n) == Older(files, n)
  {
    if n > 0 {
      OlderWritten(files, n - 1, content);
    }
  }

  lemma RetainedWritten(files: Files, n: nat, msg: seq<byte>)
    requires 0 in files
    ensures Retained(files[0 := files[0] + msg], n) == Retained(files, n) + msg
  {
    OlderWritten(files, n, files[0] + msg);
    assert Older(files, n) + (files[0] + msg) == Older(files, n) + files[0] + msg;
  }

  lemma RotateStep(s: Sink)
    requires SinkInv(s)
    ensures SinkInv(s.Rotate()) && s.Rotate().files[0] == []
  {
    RetainedShifted(s.files, s.maxFiles, s.floor);
    SuffixTrans(Retained(s.Rotate().files, s.floor), Retained(s.files, s.floor), s.history);
  }

  lemma WriteStep(s: Sink, msg: seq<byte>, current: nat)
    requires SinkInv(s) && |s.files[0]| + |msg| <= current
    requires |s.files[0]| + |msg| <= Max(s.bound, |msg|)
    ensures SinkInv(s.(files := s.files[0 := s.files[0] + msg], current := current,
                       history := s.history + msg, bound := Max(s.bound, |msg|)))
  {
    RetainedWritten(s.files, s.floor, msg);
    SuffixAppend(Retained(s.files, s.floor), s.history, msg);
  }

  lemma LogStep(s: Sink, msg: seq<byte>)
    requires SinkInv(s)
    ensures SinkInv(s.Log(msg))
  {
    if s.NeedsRotation(msg) {
      RotateStep(s);
      WriteStep(s.Rotate(), msg, s.current + |msg|);
      WriteStep(s.Rotate().(current := 0), msg, |msg|);
    } else {
      WriteStep(s, msg, s.current + |msg|);
    }
  }

  lemma SetMaxFilesStep(s: Sink, n: nat)
    requires SinkInv(s)
    ensures SinkInv(s.SetMaxFiles(n))
  {
    var r := s.SetMaxFiles(n);
    RetainedSuffix(s.files, r.floor, s.floor);
    SuffixTrans(Retained(s.files, r.floor), Retained(s.files, s.floor), s.history);
  }

  // A rotation that is given up.

  lemma ShiftedAt(files: Files, n: nat, i: nat)
    ensures i == 0 ==> i in Shifted(files, n) && Shifted(files, n)[i] == []
    ensures i > 0 ==> Final(Shifted(files, n), files, n, i)
  {
  }

  lemma GivenUpAt(files: Files, n: nat, at: nat, i: nat)
    requires Moved(files, n, at)
    ensures i == 0 ==> i in GivenUp(files, n, at) && GivenUp(files, n, at)[i] == []
    ensures 0 < i < at ==> Same(GivenUp(files, n, at), files, i)
    ensures i == at ==> i !in GivenUp(files, n, at)
    ensures i > at ==> Final(GivenUp(files, n, at), files, n, i)
  {
    hide Shifted, Stays;
    ShiftedAt(files, n, i);
  }

  lemma GivenUpContent(files: Files, n: nat, at: nat, i: nat)
    requires Moved(files, n, at) && 1 <= i <= n
    ensures Content(GivenUp(files, n, at), i) ==
      if i < at then Content(files, i) else if i == at then []
      else if i < n || i - 1 in files then Content(files, i - 1) else Content(files, i)
  {
    hide GivenUp;
    GivenUpAt(files, n, at, i);
  }

  lemma {:induction false} OlderBelow(files: Files, n: nat, at: nat, m: nat)
    requires Moved(files, n, at) && m < at
    ensures Older(GivenUp(files, n, at), m) == Older(files, m)
  {
    hide GivenUp, Content;
    if m > 0 {
      GivenUpContent(files, n, at, m);
      OlderBelow(files, n, at, m - 1);
    }
  }

  lemma {:induction false} OlderAbove(files: Files, n: nat, at: nat, m: nat)
    requires Moved(files, n, at) && at <= m <= n && (m == at || m < n || n - 1 in files)
    ensures Older(GivenUp(files, n, at), m) == Older(files, m - 1)
  {
    hide GivenUp, Content;
    GivenUpContent(files, n, at, m);
    if m == at {
      OlderBelow(files, n, at, m - 1);
      assert [] + Older(files, m - 1) == Older(files, m - 1);
    } else {
      OlderAbove(files, n, at, m - 1);
    }
  }

  /** What is left of the old files: all of them, or all but the oldest. */
  lemma OlderGivenUp(files: Files, n: nat, at: nat, m: nat)
    requires Moved(files, n, at) && m <= n
    ensures IsSuffix(Older(GivenUp(files, n, at), m), Older(files, m))
    ensures Older(GivenUp(files, n, at), m) == Older(files, m) ||
            (m >= at && Older(GivenUp(files, n, at), m) == Older(files, m - 1))
  {
    hide GivenUp, IsSuffix, Older, Content;
    if m < at {
      OlderBelow(files, n, at, m);
      OlderSuffix(files, m, m);
    } else if m == at || m < n || n - 1 in files {
      OlderAbove(files, n, at, m);
      OlderSuffix(files, m - 1, m);
    } else {
      TopGivenUp(files, n, at);
      OlderSuffix(files, n, n);
    }
  }

  lemma TopGivenUp(files: Files, n: nat, at: nat)
    requires Moved(files, n, at) && at < n && n - 1 !in files
    ensures Older(GivenUp(files, n, at), n) == Older(files, n)
  {
    hide GivenUp, Content;
    GivenUpContent(files, n, at, n);
    OlderAbove(files, n, at, n - 1);
    AbsentFile(files, n - 1);
  }

  lemma AbsentFile(files: Files, n: nat)
    requires n >= 1 && n !in files
    ensures Older(files, n) == Older(files, n - 1)
  {
    assert [] + Older(files, n - 1) == Older(files, n - 1);
  }

  lemma CutTail(a: seq<byte>, tail: seq<byte>, whole: seq<byte>)
    requires IsSuffix(a + tail, whole)
    ensures |tail| <= |whole| && IsSuffix(a, whole[..|whole| - |tail|])
    ensures whole[|whole| - |tail|..] == tail
  {
    SuffixTail(whole, a, tail);
    var rest := whole[..|whole| - |tail|];
    assert forall i :: 0 <= i < |a| ==> rest[|rest| - |a| + i] == whole[|whole| - |a + tail|..][i] == a[i];
  }

  lemma GiveUpSuffix(files: Files, r: Files, n: nat, history: seq<byte>)
    requires 0 in files && 0 in r && r[0] == []
    requires IsSuffix(Retained(files, n), history) && IsSuffix(Older(r, n), Older(files, n))
    ensures |files[0]| <= |history| && history == history[..|history| - |files[0]|] + files[0]
    ensures IsSuffix(Retained(r, n), history[..|history| - |files[0]|])
  {
    hide Older, IsSuffix;
    CutTail(Older(files, n), files[0], history);
    SuffixTrans(Older(r, n), Older(files, n), history[..|history| - |files[0]|]);
    assert Older(r, n) + [] == Older(r, n);
  }

  lemma GivenUpBounds(files: Files, n: nat, at: nat, ceiling: nat, bound: nat)
    requires Moved(files, n, at) && n <= ceiling
    requires forall i :: i in files ==> i <= ceiling && |files[i]| <= bound
    ensures var r := GivenUp(files, n, at);
      0 in r && r[0] == [] && forall i :: i in r ==> i <= ceiling && |r[i]| <= bound
  {
    hide GivenUp;
    GivenUpAt(files, n, at, 0);
    forall i | i in GivenUp(files, n, at)
      ensures i <= ceiling && |GivenUp(files, n, at)[i]| <= bound
    {
      GivenUpAt(files, n, at, i);
    }
  }

  /** Giving up a rotation loses the file being written and at most the oldest one. */
  lemma GiveUpStep(s: Sink, at: nat)
    requires SinkInv(s) && Moved(s.files, s.maxFiles, at)
    ensures SinkInv(s.GiveUp(at)) && s.GiveUp(at).files[0] == []
    ensures s.history == s.GiveUp(at).history + s.files[0]
    ensures var r, n := s.GiveUp(at).files, s.maxFiles;
      Older(r, n) == Older(s.files, n) || Older(r, n) == Older(s.files, n - 1)
  {
    hide GivenUp, Older, Retained, IsSuffix;
    var r := GivenUp(s.files, s.maxFiles, at);
    GivenUpBounds(s.files, s.maxFiles, at, s.ceiling, s.bound);
    OlderGivenUp(s.files, s.maxFiles, at, s.floor);
    OlderGivenUp(s.files, s.maxFiles, at, s.maxFiles);
    GiveUpSuffix(s.files, r, s.floor, s.history);
  }

  // ---------------------------------------------------------------- runs

  /** `jam` is the target, if any, for which a rename fails twice. */
  datatype Op = Log(msg: seq<byte>, jam: Option<nat>) | RotateNow(jam: Option<nat>)
    | SetMaxSize(n: nat) | SetMaxFiles(m: nat)

  /** What the public functions do.  A zero size or too many files is refused; a rotation that comes to
      the jammed target is given up, and then nothing is written. */
  function Do(s: Sink, op: Op): Sink
    requires 0 in s.files
  {
    match op
    case Log(msg, jam) => if s.NeedsRotation(msg) && Jams(s, jam) then s.GiveUp(jam.value) else s.Log(msg)
    case RotateNow(jam) => if Jams(s, jam) then s.GiveUp(jam.value) else s.Rotate()
    case SetMaxSize(n) => if n == 0 then s else s.SetMaxSize(n)
    case SetMaxFiles(m) => if m > MAX_FILES then s else s.SetMaxFiles(m)
  }

  predicate Jams(s: Sink, jam: Option<nat>) {
    jam.Some? && Moved(s.files, s.maxFiles, jam.value)
  }

  function Run(s: Sink, ops: seq<Op>): (r: Sink)
    requires 0 in s.files
    ensures 0 in r.files
  {
    if ops == [] then s else Do(Run(s, ops[..|ops| - 1]), ops[|ops| - 1])
  }

  lemma DoStep(s: Sink, op: Op)
    requires SinkInv(s)
    ensures SinkInv(Do(s, op))
  {
    hide SinkInv, Shifted, GivenUp;
    BaseFile(s);
    match op
    case Log(msg, jam) =>
      if s.NeedsRotation(msg) && Jams(s, jam) {
        GiveUpStep(s, jam.value);
      } else {
        LogStep(s, msg);
      }
    case RotateNow(jam) =>
      if Jams(s, jam) {
        GiveUpStep(s, jam.value);
      } else {
        RotateStep(s);
      }
    case SetMaxSize(n) => SetMaxSizeStep(s, n);
    case SetMaxFiles(m) =>
      if m <= MAX_FILES {
        SetMaxFilesStep(s, m);
      }
  }

  lemma BaseFile(s: Sink)
    requires SinkInv(s)
    ensures 0 in s.files
  {
  }

  lemma SetMaxSizeStep(s: Sink, n: nat)
    requires SinkInv(s)
    ensures SinkInv(s.SetMaxSize(n))
  {
  }

  /** Rotation over every run, from any directory, with renames that work or fail: the files up to the
      least limit are, joined, the end of the history, and no file is longer than the largest limit or
      message there has been. */
  lemma {:induction false} RotationKeepsSuffix(s: Sink, ops: seq<Op>)
    requires SinkInv(s)
    ensures SinkInv(Run(s, ops))
  {
    hide SinkInv;
    BaseFile(s);
    if ops != [] {
      RotationKeepsSuffix(s, ops[..|ops| - 1]);
      DoStep(Run(s, ops[..|ops| - 1]), ops[|ops| - 1]);
    }
  }

  /** No rename fails for good. */
  predicate Smooth(ops: seq<Op>) {
    forall i :: 0 <= i < |ops| ==> SmoothOp(ops[i])
  }

  predicate SmoothOp(op: Op) {
    (op.Log? ==> op.jam == None) && (op.RotateNow? ==> op.jam == None)
  }

  /** While renames work, a directory without gaps up to the least limit has none later either. */
  lemma {:induction false} SmoothRunKeepsOrder(s: Sink, ops: seq<Op>, k: nat) returns (m: nat)
    requires SinkInv(s) && KeepsSuffix(s.files, s.floor, s.history, k) && Smooth(ops)
    ensures var r := Run(s, ops); KeepsSuffix(r.files, r.floor, r.history, m)
  {
    hide SinkInv, KeepsSuffix, Do;
    BaseFile(s);
    if ops == [] {
      m := k;
    } else {
      var before := ops[..|ops| - 1];
      assert SmoothOp(ops[|ops| - 1]) && forall i :: 0 <= i < |before| ==> before[i] == ops[i];
      var j := SmoothRunKeepsOrder(s, before, k);
      RotationKeepsSuffix(s, before);
      m := SmoothStepKeepsOrder(Run(s, before), ops[|ops| - 1], j);
    }
  }

  lemma SmoothStepKeepsOrder(s: Sink, op: Op, k: nat) returns (m: nat)
    requires SinkInv(s) && KeepsSuffix(s.files, s.floor, s.history, k) && SmoothOp(op)
    ensures var r := Do(s, op); KeepsSuffix(r.files, r.floor, r.history, m)
  {
    hide Shifted, GivenUp;
    match op
    case Log(msg, _) =>
      if s.NeedsRotation(msg) {
        ShiftKeepsSuffix(s.files, s.maxFiles, s.floor, s.history, k);
        m := Min(k, s.floor) + 1;
        WriteKeepsSuffix(Shifted(s.files, s.maxFiles), s.floor, s.history, m, msg);
      } else {
        m := k;
        WriteKeepsSuffix(s.files, s.floor, s.history, k, msg);
      }
    case RotateNow(_) =>
      ShiftKeepsSuffix(s.files, s.maxFiles, s.floor, s.history, k);
      m := Min(k, s.floor) + 1;
    case SetMaxSize(_) => m := k;
    case SetMaxFiles(n) =>
      m := k;
      if n <= MAX_FILES {
        m := Min(k, Min(s.floor, n) + 1);
        DropOld(s, k, m);
      }
  }

  lemma WriteKeepsSuffix(files: Files, floor: nat, history: seq<byte>, k: nat, msg: seq<byte>)
    requires KeepsSuffix(files, floor, history, k)
    ensures 0 in files && KeepsSuffix(files[0 := files[0] + msg], floor, history + msg, k)
  {
    JoinedAppend(files, k, msg);
    SuffixAppend(Joined(files, k), history, msg);
  }

  /** Leaving out the oldest files leaves a suffix. */
  lemma {:induction false} DropOld(s: Sink, k: nat, m: nat)
    requires m <= k && forall i: nat :: i < k ==> i in s.files
    requires IsSuffix(Joined(s.files, k), s.history)
    ensures IsSuffix(Joined(s.files, m), s.history)
  {
    if m < k {
      SuffixTail(s.history, s.files[k - 1], Joined(s.files, k - 1));
      DropOld(s, k - 1, m);
    }
  }

  // ---------------------------------------------------------------- the whole directory

  /** The directory is `k` files numbered without gaps. */
  ghost predicate Gapless(files: Files, k: nat) {
    forall i: nat :: i in files <==> i < k
  }

  /** The whole directory is `k` files without gaps that join to the end of everything written. */
  ghost predicate WholeOf(s: Sink, k: nat) {
    Gapless(s.files, k) && IsSuffix(Joined(s.files, k), s.history)
  }

  /** And there are no more of them than were asked for. */
  ghost predicate Whole(s: Sink) {
    exists k :: 1 <= k <= s.maxFiles + 1 && WholeOf(s, k)
  }

  lemma RotateWhole(s: Sink, k: nat)
    requires 1 <= k <= s.maxFiles + 1 && WholeOf(s, k)
    ensures WholeOf(s.Rotate(), Min(k, s.maxFiles) + 1) && Whole(s.Rotate())
  {
    var r, m := Shifted(s.files, s.maxFiles), Min(k, s.maxFiles) + 1;
    ShiftKeepsSuffix(s.files, s.maxFiles, s.maxFiles, s.history, k);
    assert forall i: nat :: i in r <==> i < m;
  }

  lemma WriteWhole(s: Sink, msg: seq<byte>, current: nat, bound: nat)
    requires Whole(s)
    ensures 0 in s.files
    ensures Whole(s.(files := s.files[0 := s.files[0] + msg], current := current, history := s.history + msg,
                     bound := bound))
  {
    var k :| 1 <= k <= s.maxFiles + 1 && WholeOf(s, k);
    JoinedAppend(s.files, k, msg);
    SuffixAppend(Joined(s.files, k), s.history, msg);
    assert WholeOf(s.(files := s.files[0 := s.files[0] + msg], current := current, history := s.history + msg,
                      bound := bound), k);
  }

  /** The operation asks for fewer files than are kept now. */
  predicate Lowers(maxFiles: nat, op: Op) {
    op.SetMaxFiles? && op.m <= MAX_FILES && op.m < maxFiles
  }

  lemma WholeStep(s: Sink, op: Op)
    requires Whole(s) && !Lowers(s.maxFiles, op) && SmoothOp(op)
    ensures 0 in s.files && Whole(Do(s, op))
  {
    hide Shifted;
    var k :| 1 <= k <= s.maxFiles + 1 && WholeOf(s, k);
    RotateWhole(s, k);
    match op
    case Log(msg, _) =>
      WriteWhole(s, msg, s.current + |msg|, Max(s.bound, |msg|));
      WriteWhole(s.Rotate(), msg, |msg|, Max(s.bound, |msg|));
    case RotateNow(_) =>
    case SetMaxSize(n) => assert WholeOf(Do(s, op), k);
    case SetMaxFiles(m) => assert WholeOf(Do(s, op), k);
  }

  /** The number of old files asked for after the operations. */
  function Limit(maxFiles: nat, ops: seq<Op>): nat {
    if ops == [] then maxFiles
    else
      var op := ops[|ops| - 1];
      if op.SetMaxFiles? && op.m <= MAX_FILES then op.m else Limit(maxFiles, ops[..|ops| - 1])
  }

  /** The size limit after the operations. */
  function SizeLimit(maxSize: nat, ops: seq<Op>): nat {
    if ops == [] then maxSize
    else
      var op := ops[|ops| - 1];
      if op.SetMaxSize? && op.n != 0 then op.n else SizeLimit(maxSize, ops[..|ops| - 1])
  }

  predicate NeverLowers(maxFiles: nat, ops: seq<Op>) {
    ops == [] ||
    (NeverLowers(maxFiles, ops[..|ops| - 1]) && !Lowers(Limit(maxFiles, ops[..|ops| - 1]), ops[|ops| - 1]))
  }

  /** Everything the operations log. */
  function Logged(ops: seq<Op>): seq<byte> {
    if ops == [] then []
    else Logged(ops[..|ops| - 1]) + if ops[|ops| - 1].Log? then ops[|ops| - 1].msg else []
  }

  /** The largest of `bound`, the size limits asked for and the message lengths. */
  function Largest(bound: nat, ops: seq<Op>): nat {
    if ops == [] then bound
    else
      var before := Largest(bound, ops[..|ops| - 1]);
      match ops[|ops| - 1]
      case Log(msg, _) => Max(before, |msg|)
      case SetMaxSize(n) => Max(before, n)
      case _ => before
  }

  lemma {:induction false} RunBookkeeping(s: Sink, ops: seq<Op>)
    requires 0 in s.files && Smooth(ops)
    ensures var r := Run(s, ops);
      && r.maxFiles == Limit(s.maxFiles, ops) && r.bound == Largest(s.bound, ops)
      && r.history == s.history + Logged(ops)
  {
    hide Shifted;
    if ops != [] {
      assert SmoothOp(ops[|ops| - 1]);
      RunBookkeeping(s, ops[..|ops| - 1]);
    }
  }

  lemma {:induction false} RunSizeLimit(s: Sink, ops: seq<Op>)
    requires 0 in s.files
    ensures Run(s, ops).maxSize == SizeLimit(s.maxSize, ops)
  {
    hide Shifted, GivenUp;
    if ops != [] {
      RunSizeLimit(s, ops[..|ops| - 1]);
    }
  }

  /** While the number of files is never lowered and renames work, the whole directory stays a gap-free suffix of
      everything written, whatever is logged, rotated and set in between, and no file is longer than
      the largest limit or message. */
  lemma {:induction false} NeverLoweredStaysWhole(s: Sink, ops: seq<Op>)
    requires SinkInv(s) && Whole(s) && NeverLowers(s.maxFiles, ops) && Smooth(ops)
    ensures var r := Run(s, ops);
      && Whole(r) && r.history == s.history + Logged(ops)
      && forall i :: i in r.files ==> |r.files[i]| <= Largest(s.bound, ops)
  {
    RunBookkeeping(s, ops);
    RotationKeepsSuffix(s, ops);
    if ops != [] {
      var before := ops[..|ops| - 1];
      assert SmoothOp(ops[|ops| - 1]);
      NeverLoweredStaysWhole(s, before);
      RunBookkeeping(s, before);
      WholeStep(Run(s, before), ops[|ops| - 1]);
    }
  }

  /** A sink that opens a new file in an empty directory. */
  function Empty(maxSize: nat, maxFiles: nat): Sink {
    Sink(map[0 := []], 0, maxSize, maxFiles, [], maxFiles, maxFiles, maxSize)
  }

  lemma EmptyIsWhole(maxSize: nat, maxFiles: nat)
    ensures SinkInv(Empty(maxSize, maxFiles)) && Whole(Empty(maxSize, maxFiles))
  {
    var s := Empty(maxSize, maxFiles);
    assert Joined(s.files, 1) == s.files[0] + Joined(s.files, 0);
    assert WholeOf(s, 1);
    NothingOlder(s.files, maxFiles);
  }

  lemma {:induction false} NothingOlder(files: Files, n: nat)
    requires forall i: nat :: 1 <= i <= n ==> i !in files
    ensures Older(files, n) == []
  {
    if n > 0 {
      NothingOlder(files, n - 1);
    }
  }

  /** From an empty directory: the retained files are the end of all bytes logged, without gaps. */
  lemma LogsAreRetained(maxSize: nat, maxFiles: nat, ops: seq<Op>)
    requires NeverLowers(maxFiles, ops) && Smooth(ops)
    ensures var r := Run(Empty(maxSize, maxFiles), ops);
      && (exists k :: 1 <= k <= r.maxFiles + 1 && Gapless(r.files, k) && IsSuffix(Joined(r.files, k), Logged(ops)))
      && forall i :: i in r.files ==> |r.files[i]| <= Largest(maxSize, ops)
  {
    var s := Empty(maxSize, maxFiles);
    EmptyIsWhole(maxSize, maxFiles);
    NeverLoweredStaysWhole(s, ops);
    var r := Run(s, ops);
    var k :| 1 <= k <= r.maxFiles + 1 && WholeOf(r, k);
    assert [] + Logged(ops) == Logged(ops);
  }

  /** A sink that opens the base file of a directory, with file lengths up to `limit` and indices up to
      `top`; an absent base file is created empty. */
  function Opened(maxSize: nat, maxFiles: nat, existing: Files, limit: nat, top: nat): Sink {
    Sink(if 0 in existing then existing else existing[0 := []], |Content(existing, 0)|, maxSize, maxFiles,
         Retained(existing, maxFiles), maxFiles, Max(top, maxFiles), Max(limit, maxSize))
  }

  lemma OpenedInv(maxSize: nat, maxFiles: nat, existing: Files, limit: nat, top: nat)
    requires forall i :: i in existing ==> |existing[i]| <= limit && i <= top
    ensures SinkInv(Opened(maxSize, maxFiles, existing, limit, top))
  {
    OlderWritten(existing, maxFiles, []);
    var whole := Retained(existing, maxFiles);
    assert whole[|whole| - |whole|..] == whole;
  }

  /** A directory of files without gaps, no more than are asked for, is whole. */
  lemma OpenedWhole(maxSize: nat, maxFiles: nat, existing: Files, limit: nat, top: nat, k: nat)
    requires Gapless(existing, k) && k <= maxFiles + 1
    ensures Whole(Opened(maxSize, maxFiles, existing, limit, top))
    ensures Retained(existing, maxFiles) == Joined(existing, k)
  {
    var s := Opened(maxSize, maxFiles, existing, limit, top);
    JoinedIsRetained(existing, k, maxFiles);
    if k == 0 {
      assert Joined(s.files, 1) == s.files[0] + Joined(s.files, 0);
      assert WholeOf(s, 1);
    } else {
      assert WholeOf(s, k);
    }
  }

  lemma {:induction false} JoinedIsRetained(files: Files, k: nat, n: nat)
    requires Gapless(files, k) && k <= n + 1
    ensures Joined(files, k) == Retained(files, n)
  {
    if k == 0 {
      NothingOlder(files, n);
    } else if k <= n {
      JoinedIsRetained(files, k, n - 1);
      assert [] + Older(files, n - 1) == Older(files, n - 1);
    } else {
      JoinedIsOlder(files, k, n);
    }
  }

  lemma {:induction false} JoinedIsOlder(files: Files, k: nat, n: nat)
    requires (forall i: nat :: i < k ==> i in files) && n + 1 <= k
    ensures Joined(files, n + 1) == Retained(files, n)
  {
    if n == 0 {
      assert Joined(files, 1) == files[0] + Joined(files, 0);
    } else {
      JoinedIsOlder(files, k, n - 1);
      assert files[n] + (Older(files, n - 1) + files[0]) == files[n] + Older(files, n - 1) + files[0];
    }
  }

  lemma SizeReset(s: Sink)
    requires SinkInv(s) && s.files[0] == []
    ensures SinkInv(s.(current := 0))
  {
  }

  // When a message causes a rotation.

  /** How much larger than the file being written the sink believes it to be: a bare rotation empties the
      file but does not reset the size; the next rotation by a message, or one that is given up, does. */
  function Excess(s: Sink, ops: seq<Op>): nat
    requires 0 in s.files
  {
    if ops == [] then 0
    else
      var before, r := Excess(s, ops[..|ops| - 1]), Run(s, ops[..|ops| - 1]);
      match ops[|ops| - 1]
      case Log(msg, _) => if Rotates(r.files[0], before, msg, r.maxSize) then 0 else before
      case RotateNow(jam) => if Jams(r, jam) then 0 else before + |r.files[0]|
      case _ => before
  }

  /** The message would take the file over the limit, and the file is not empty. */
  predicate Rotates(file: seq<byte>, excess: nat, msg: seq<byte>, limit: nat) {
    file != [] && |file| + excess + |msg| > limit
  }

  lemma {:induction false} SizeIsKnown(s: Sink, ops: seq<Op>)
    requires SinkInv(s) && s.current == |s.files[0]|
    ensures Run(s, ops).current == |Run(s, ops).files[0]| + Excess(s, ops)
  {
    if ops != [] {
      SizeIsKnown(s, ops[..|ops| - 1]);
      RotationKeepsSuffix(s, ops[..|ops| - 1]);
      SizeStep(Run(s, ops[..|ops| - 1]), ops[|ops| - 1], Excess(s, ops[..|ops| - 1]));
    }
  }

  lemma SizeStep(s: Sink, op: Op, excess: nat)
    requires SinkInv(s) && s.current == |s.files[0]| + excess
    ensures Do(s, op).current == |Do(s, op).files[0]| +
      match op
      case Log(msg, _) => if Rotates(s.files[0], excess, msg, s.maxSize) then 0 else excess
      case RotateNow(jam) => if Jams(s, jam) then 0 else excess + |s.files[0]|
      case _ => excess
  {
    hide Shifted, GivenUp, Retained;
    ShiftedAt(s.files, s.maxFiles, 0);
    match op
    case Log(_, jam) =>
      if Jams(s, jam) {
        GiveUpStep(s, jam.value);
      }
    case RotateNow(jam) =>
      if Jams(s, jam) {
        GiveUpStep(s, jam.value);
      }
    case _ =>
  }

  /** Over every run: a message is appended to the file as it is unless the file is not empty and file,
      excess and message exceed the size limit; then every file up to the number asked for moves up and
      the message starts a new one.  A file that has room is not rotated. */
  lemma LogRotatesExactlyWhen(s: Sink, ops: seq<Op>, msg: seq<byte>)
    requires SinkInv(s) && s.current == |s.files[0]|
    ensures var r, d := Run(s, ops), Run(s, ops + [Op.Log(msg, None)]);
      if Rotates(r.files[0], Excess(s, ops), msg, SizeLimit(s.maxSize, ops))
      then 0 in d.files && d.files[0] == msg &&
           forall i: nat :: 1 <= i <= r.maxFiles && i - 1 in r.files ==> i in d.files && d.files[i] == r.files[i - 1]
      else d.files == r.files[0 := r.files[0] + msg]
    ensures (forall i :: 0 <= i < |ops| ==> !ops[i].RotateNow?) ==> Excess(s, ops) == 0
  {
    hide Do, SinkInv, Excess;
    BaseFile(s);
    SizeIsKnown(s, ops);
    RunSizeLimit(s, ops);
    RunNext(s, ops, Op.Log(msg, None));
    NoExcess(s, ops);
    LogMeans(Run(s, ops), msg, Excess(s, ops));
  }

  lemma LogMeans(s: Sink, msg: seq<byte>, excess: nat)
    requires 0 in s.files && s.current == |s.files[0]| + excess
    ensures var d := Do(s, Op.Log(msg, None));
      if Rotates(s.files[0], excess, msg, s.maxSize)
      then 0 in d.files && d.files[0] == msg &&
           forall i: nat :: 1 <= i <= s.maxFiles && i - 1 in s.files ==> i in d.files && d.files[i] == s.files[i - 1]
      else d.files == s.files[0 := s.files[0] + msg]
  {
    hide Shifted, GivenUp;
    assert [] + msg == msg;
    ShiftedAt(s.files, s.maxFiles, 0);
    forall i: nat | 1 <= i <= s.maxFiles && i - 1 in s.files
      ensures i in Shifted(s.files, s.maxFiles) && Shifted(s.files, s.maxFiles)[i] == s.files[i - 1]
    {
      ShiftedAt(s.files, s.maxFiles, i);
    }
  }

  lemma {:induction false} NoExcess(s: Sink, ops: seq<Op>)
    requires 0 in s.files
    ensures (forall i :: 0 <= i < |ops| ==> !ops[i].RotateNow?) ==> Excess(s, ops) == 0
  {
    if ops != [] && forall i :: 0 <= i < |ops| ==> !ops[i].RotateNow? {
      NoExcess(s, ops[..|ops| - 1]);
    }
  }

  /** As long as everything logged fits into one file it is in one file. */
  lemma {:induction false} LogsFillOneFile(maxSize: nat, maxFiles: nat, ops: seq<Op>)
    requires forall i :: 0 <= i < |ops| ==> ops[i].Log?
    requires |Logged(ops)| <= maxSize
    ensures Run(Empty(maxSize, maxFiles), ops).files == map[0 := Logged(ops)]
    ensures Run(Empty(maxSize, maxFiles), ops).current == |Logged(ops)|
    ensures Run(Empty(maxSize, maxFiles), ops).maxSize == maxSize
  {
    if ops != [] {
      LogsFillOneFile(maxSize, maxFiles, ops[..|ops| - 1]);
    }
  }

  /** A bare rotation is what makes the next one come early: with a limit of two bytes, a message, a bare
      rotation and two more messages leave each message in a file of its own. */
  lemma BareRotationComesEarly(a: byte, b: byte, c: byte) returns (ops: seq<Op>)
    ensures ops == [Op.Log([a], None), Op.RotateNow(None), Op.Log([b], None), Op.Log([c], None)]
    ensures Run(Empty(2, 2), ops).files == map[0 := [c], 1 := [b], 2 := [a]]
  {
    hide Shifted, Do;
    var s := Empty(2, 2);
    var s1 := s.(files := map[0 := [a]], current := 1, history := [a]);
    var s2 := s1.(files := map[0 := [], 1 := [a]]);
    var s3 := s2.(files := map[0 := [b], 1 := [a]], current := 2, history := [a, b]);
    EarlySteps(a, b);
    ops := Again(s, [], s, Op.Log([a], None), s1);
    ops := Again(s, ops, s1, Op.RotateNow(None), s2);
    ops := Again(s, ops, s2, Op.Log([b], None), s3);
    EarlyRotation(a, b, c);
    ops := Again(s, ops, s3, Op.Log([c], None),
                 s3.(files := map[0 := [c], 1 := [b], 2 := [a]], current := 1, history := [a, b, c]));
  }

  lemma EarlySteps(a: byte, b: byte)
    ensures var s := Empty(2, 2);
      var s1 := s.(files := map[0 := [a]], current := 1, history := [a]);
      var s2 := s1.(files := map[0 := [], 1 := [a]]);
      Do(s, Op.Log([a], None)) == s1 && Do(s1, Op.RotateNow(None)) == s2 &&
      Do(s2, Op.Log([b], None)) == s2.(files := map[0 := [b], 1 := [a]], current := 2, history := [a, b])
  {
    hide Shifted;
    var s := Empty(2, 2);
    assert s.files[0] + [a] == [a] && s.history + [a] == [a] && [] + [b] == [b];
    RotateOne(map[0 := [a]], 2);
  }

  lemma EarlyRotation(a: byte, b: byte, c: byte)
    ensures var s3 := Sink(map[0 := [b], 1 := [a]], 2, 2, 2, [a, b], 2, 2, 2);
      Do(s3, Op.Log([c], None)) == s3.(files := map[0 := [c], 1 := [b], 2 := [a]], current := 1, history := [a, b, c])
  {
    hide Shifted;
    var s3 := Sink(map[0 := [b], 1 := [a]], 2, 2, 2, [a, b], 2, 2, 2);
    RotateTwo(s3.files);
    LogRotates(s3, [c], s3.(files := map[0 := [c], 1 := [b], 2 := [a]], current := 1, history := [a, b, c]));
  }

  // Nothing is lost before the directory is full.

  /** The whole directory, with nothing missing unless it is full. */
  ghost predicate Complete(s: Sink) {
    exists k :: 1 <= k <= s.maxFiles + 1 && WholeOf(s, k) && (k <= s.maxFiles ==> |Joined(s.files, k)| == |s.history|)
  }

  lemma RotateComplete(s: Sink)
    requires Complete(s)
    ensures 0 in s.files && Complete(s.Rotate())
  {
    hide Shifted;
    var k :| 1 <= k <= s.maxFiles + 1 && WholeOf(s, k) && (k <= s.maxFiles ==> |Joined(s.files, k)| == |s.history|);
    RotateWhole(s, k);
    if k < s.maxFiles {
      ShiftedIndices(s.files, s.maxFiles, s.maxFiles, k);
      JoinedShift(s.files, s.Rotate().files, k);
    }
    assert WholeOf(s.Rotate(), Min(k, s.maxFiles) + 1);
  }

  lemma WriteComplete(s: Sink, msg: seq<byte>, current: nat, bound: nat)
    requires Complete(s)
    ensures 0 in s.files
    ensures Complete(s.(files := s.files[0 := s.files[0] + msg], current := current, history := s.history + msg,
                        bound := bound))
  {
    var k :| 1 <= k <= s.maxFiles + 1 && WholeOf(s, k) && (k <= s.maxFiles ==> |Joined(s.files, k)| == |s.history|);
    JoinedAppend(s.files, k, msg);
    SuffixAppend(Joined(s.files, k), s.history, msg);
    assert WholeOf(s.(files := s.files[0 := s.files[0] + msg], current := current, history := s.history + msg,
                      bound := bound), k);
  }

  lemma CompleteStep(s: Sink, op: Op)
    requires Complete(s) && !op.SetMaxFiles? && SmoothOp(op)
    ensures 0 in s.files && Complete(Do(s, op))
  {
    hide Shifted;
    RotateComplete(s);
    match op
    case Log(msg, _) =>
      WriteComplete(s, msg, s.current + |msg|, Max(s.bound, |msg|));
      WriteComplete(s.Rotate(), msg, |msg|, Max(s.bound, |msg|));
    case RotateNow(_) =>
    case SetMaxSize(n) =>
      var k :| 1 <= k <= s.maxFiles + 1 && WholeOf(s, k) && (k <= s.maxFiles ==> |Joined(s.files, k)| == |s.history|);
      assert WholeOf(Do(s, op), k);
  }

  lemma {:induction false} RunComplete(s: Sink, ops: seq<Op>)
    requires Complete(s) && 0 in s.files && Smooth(ops) && forall i :: 0 <= i < |ops| ==> !ops[i].SetMaxFiles?
    ensures Complete(Run(s, ops))
  {
    hide Complete, Do;
    if ops != [] {
      assert SmoothOp(ops[|ops| - 1]);
      RunComplete(s, ops[..|ops| - 1]);
      CompleteStep(Run(s, ops[..|ops| - 1]), ops[|ops| - 1]);
    }
  }

  /** From an empty directory, with the number of files left alone: there are at most one more files than
      asked for, and until there are that many they hold, joined, every byte logged. */
  lemma NothingLostUntilFull(maxSize: nat, maxFiles: nat, ops: seq<Op>)
    requires Smooth(ops) && forall i :: 0 <= i < |ops| ==> !ops[i].SetMaxFiles?
    ensures var r := Run(Empty(maxSize, maxFiles), ops);
      exists k :: 1 <= k <= maxFiles + 1 && Gapless(r.files, k) && (k <= maxFiles ==> Joined(r.files, k) == Logged(ops))
  {
    var s := Empty(maxSize, maxFiles);
    EmptyIsWhole(maxSize, maxFiles);
    assert Joined(s.files, 1) == s.files[0] + Joined(s.files, 0);
    assert WholeOf(s, 1);
    RunComplete(s, ops);
    RunBookkeeping(s, ops);
    LimitAlone(maxFiles, ops);
    var r := Run(s, ops);
    var k :| 1 <= k <= r.maxFiles + 1 && WholeOf(r, k) && (k <= r.maxFiles ==> |Joined(r.files, k)| == |r.history|);
    assert [] + Logged(ops) == Logged(ops) && Logged(ops)[0..] == Logged(ops);
  }

  lemma {:induction false} LimitAlone(maxFiles: nat, ops: seq<Op>)
    requires forall i :: 0 <= i < |ops| ==> !ops[i].SetMaxFiles?
    ensures Limit(maxFiles, ops) == maxFiles
  {
    if ops != [] {
      LimitAlone(maxFiles, ops[..|ops| - 1]);
    }
  }

  // What lowering the number does.

  /** One rotation that keeps `n` old files leaves every whole directory of `k` files whole. */
  ghost predicate RotationSafe(n: nat, k: nat) {
    forall s: Sink :: s.maxFiles == n && WholeOf(s, k) ==> exists m :: WholeOf(s.Rotate(), m)
  }

  /** The exact condition: there are no more files than the rotation keeps. */
  lemma RotationSafeExactlyWhen(n: nat, k: nat)
    requires k >= 1
    ensures RotationSafe(n, k) <==> k <= n + 1
  {
    if k <= n + 1 {
      forall s: Sink | s.maxFiles == n && WholeOf(s, k)
        ensures exists m :: WholeOf(s.Rotate(), m)
      {
        RotateWhole(s, k);
      }
    } else {
      UnsafeRotation(n, k);
    }
  }

  /** File `n` holds one byte, file `n + 1` another, and the rest are empty: the rotation loses the newer
      byte and keeps the older. */
  function Mark(n: nat, i: nat): seq<byte> {
    if i == n + 1 then [0] else if i == n then [1] else []
  }

  function Marked(n: nat, k: nat): Files {
    map i: nat | i < k :: Mark(n, i)
  }

  lemma UnsafeRotation(n: nat, k: nat)
    requires k > n + 1
    ensures !RotationSafe(n, k)
  {
    var s := Sink(Marked(n, k), 0, 0, n, [0, 1], 0, 0, 0);
    JoinedMarked(n, k, k);
    assert WholeOf(s, k);
    var r := s.Rotate().files;
    MarkedShifted(n, k);
    forall m: nat | Gapless(r, m)
      ensures !IsSuffix(Joined(r, m), s.history)
    {
      assert (k - 1 in r <==> k - 1 < m) && (k in r <==> k < m);
      JoinedOne(r, n + 1, k);
      assert [0, 1][1..] != [0];
    }
    assert forall m :: !WholeOf(s.Rotate(), m);
  }

  lemma {:induction false} JoinedMarked(n: nat, k: nat, j: nat)
    requires j <= k && k > n + 1
    ensures Joined(Marked(n, k), j) == if j <= n then [] else if j == n + 1 then [1] else [0, 1]
  {
    if j > 0 {
      JoinedMarked(n, k, j - 1);
    }
  }

  lemma MarkedShifted(n: nat, k: nat)
    requires k > n + 1
    ensures var r := Shifted(Marked(n, k), n);
      Gapless(r, k) && forall i: nat :: i < k ==> r[i] == if i == n + 1 then [0] else []
  {
    var a := Marked(n, k);
    forall i: nat
      ensures Moved(a, n, i) <==> 1 <= i <= n
      ensures Stays(a, n, i) ==> i < k
      ensures n < i < k ==> Stays(a, n, i)
    {
    }
  }

  lemma {:induction false} JoinedOne(files: Files, at: nat, j: nat)
    requires forall i: nat :: i < j ==> i in files && files[i] == if i == at then [0] else []
    ensures Joined(files, j) == if j <= at then [] else [0]
  {
    if j > 0 {
      JoinedOne(files, at, j - 1);
    }
  }

  /** From an empty directory: keep two old files, log three messages, keep one, and log a fourth.  The
      oldest file is now older than a message that is gone. */
  lemma LoweredLimitLeavesStaleFile(a: byte, b: byte, c: byte) returns (ops: seq<Op>)
    requires a != b
    ensures ops == [Op.Log([a], None), Op.Log([b], None), Op.Log([b], None), Op.SetMaxFiles(1), Op.Log([c], None)]
    ensures var r := Run(Empty(1, 2), ops);
      && Gapless(r.files, 3) && r.files[2] == [a] && r.history == [a, b, b, c]
      && !exists m :: WholeOf(r, m)
  {
    hide Shifted, Do, Gapless;
    var s := Empty(1, 2);
    var s1 := s.(files := map[0 := [a]], current := 1, history := [a]);
    StaleLogs(a, b);
    ops := Again(s, [], s, Op.Log([a], None), s1);
    var s2 := s1.(files := map[0 := [b], 1 := [a]], history := [a, b]);
    ops := Again(s, ops, s1, Op.Log([b], None), s2);
    var s3 := s2.(files := map[0 := [b], 1 := [b], 2 := [a]], history := [a, b, b]);
    ops := Again(s, ops, s2, Op.Log([b], None), s3);
    StaleLowers(a, b, c);
    ops := Again(s, ops, s3, Op.SetMaxFiles(1), s3.(maxFiles := 1, floor := 1));
    var s5 := s3.(maxFiles := 1, floor := 1, files := map[0 := [c], 1 := [b], 2 := [a]], history := [a, b, b, c]);
    ops := Again(s, ops, s3.(maxFiles := 1, floor := 1), Op.Log([c], None), s5);
    StaleOf(a, b, c, s5);
  }

  lemma StaleLogs(a: byte, b: byte)
    ensures var s := Empty(1, 2);
      var s1 := s.(files := map[0 := [a]], current := 1, history := [a]);
      var s2 := s1.(files := map[0 := [b], 1 := [a]], history := [a, b]);
      var s3 := s2.(files := map[0 := [b], 1 := [b], 2 := [a]], history := [a, b, b]);
      Do(s, Op.Log([a], None)) == s1 && Do(s1, Op.Log([b], None)) == s2 && Do(s2, Op.Log([b], None)) == s3
  {
    hide Shifted;
    var s := Empty(1, 2);
    var s1 := s.(files := map[0 := [a]], current := 1, history := [a]);
    assert s.files[0] + [a] == [a] && s.history + [a] == [a];
    var s2 := s1.(files := map[0 := [b], 1 := [a]], history := [a, b]);
    RotateOne(s1.files, 2);
    LogRotates(s1, [b], s2);
    RotateTwo(s2.files);
    LogRotates(s2, [b], s2.(files := map[0 := [b], 1 := [b], 2 := [a]], history := [a, b, b]));
  }

  lemma StaleLowers(a: byte, b: byte, c: byte)
    ensures var s3 := Sink(map[0 := [b], 1 := [b], 2 := [a]], 1, 1, 2, [a, b, b], 2, 2, 1);
      var s4 := s3.(maxFiles := 1, floor := 1);
      Do(s3, Op.SetMaxFiles(1)) == s4 &&
      Do(s4, Op.Log([c], None)) == s4.(files := map[0 := [c], 1 := [b], 2 := [a]], history := [a, b, b, c])
  {
    hide Shifted;
    var s4 := Sink(map[0 := [b], 1 := [b], 2 := [a]], 1, 1, 1, [a, b, b], 1, 2, 1);
    RotateStale(s4.files);
    LogRotates(s4, [c], s4.(files := map[0 := [c], 1 := [b], 2 := [a]], history := [a, b, b, c]));
  }

  lemma StaleOf(a: byte, b: byte, c: byte, s5: Sink)
    requires a != b && s5.files == map[0 := [c], 1 := [b], 2 := [a]] && s5.history == [a, b, b, c]
    ensures Gapless(s5.files, 3) && !exists m :: WholeOf(s5, m)
  {
    Three(s5.files);
    forall m: nat | Gapless(s5.files, m)
      ensures !IsSuffix(Joined(s5.files, m), s5.history)
    {
      assert (2 in s5.files <==> 2 < m) && (3 in s5.files <==> 3 < m);
      assert [a, b, b, c][1..] == [b, b, c];
      assert [b, b, c][0] != [a, b, c][0];
    }
  }

  lemma LogRotates(s: Sink, msg: seq<byte>, r: Sink)
    requires 0 in s.files && s.NeedsRotation(msg) && |msg| <= s.bound
    requires r == s.(files := Shifted(s.files, s.maxFiles)[0 := msg], current := |msg|, history := s.history + msg)
    ensures s.Log(msg) == r
  {
    assert [] + msg == msg;
  }

  lemma Again(s: Sink, ops: seq<Op>, m: Sink, op: Op, r: Sink) returns (more: seq<Op>)
    requires 0 in s.files && Run(s, ops) == m && Do(m, op) == r
    ensures more == ops + [op] && Run(s, more) == r
  {
    more := ops + [op];
    RunNext(s, ops, op);
  }

  lemma RunNext(s: Sink, ops: seq<Op>, op: Op)
    requires 0 in s.files
    ensures Run(s, ops + [op]) == Do(Run(s, ops), op)
  {
    assert (ops + [op])[..|ops|] == ops;
  }

  lemma RotateOne(files: Files, n: nat)
    requires files.Keys == {0} && n >= 1
    ensures Shifted(files, n) == map[0 := [], 1 := files[0]]
  {
    assert forall i: nat :: Moved(files, n, i) <==> i == 1;
  }

  lemma RotateTwo(files: Files)
    requires files.Keys == {0, 1}
    ensures Shifted(files, 2) == map[0 := [], 1 := files[0], 2 := files[1]]
  {
    assert forall i: nat :: Moved(files, 2, i) <==> i == 1 || i == 2;
  }

  lemma RotateStale(files: Files)
    requires files.Keys == {0, 1, 2}
    ensures Shifted(files, 1) == map[0 := [], 1 := files[0], 2 := files[2]]
  {
    assert forall i: nat :: Moved(files, 1, i) <==> i == 1;
    assert forall i: nat :: Stays(files, 1, i) <==> i == 2;
  }

  lemma Three(files: Files)
    requires files.Keys == {0, 1, 2}
    ensures Joined(files, 3) == files[2] + files[1] + files[0]
  {
    assert Joined(files, 1) == files[0] + Joined(files, 0) == files[0];
    assert Joined(files, 2) == files[1] + Joined(files, 1);
    assert Joined(files, 3) == files[2] + Joined(files, 2);
  }

  // ---------------------------------------------------------------- the class

  class RotatingFileSink {
    var maxSize: nat
    var maxFiles: nat
    var currentSize: nat
    /** The directory, by file index. */
    var files: Files

    ghost var history: seq<byte>
    ghost var floor: nat
    ghost var ceiling: nat
    ghost var bound: nat

    ghost function View(): Sink
      reads this
    {
      Sink(files, currentSize, maxSize, maxFiles, history, floor, ceiling, bound)
    }

    ghost predicate Valid()
      reads this
    {
      SinkInv(View())
    }

    /** Opens the base file, which keeps what it holds, in a directory with any files; `limit` bounds their
        lengths and `top` their indices. */
    constructor (maxSize: nat, maxFiles: nat, existing: Files, ghost limit: nat, ghost top: nat)
      requires forall i :: i in existing ==> |existing[i]| <= limit && i <= top
      ensures Valid() && View() == Opened(maxSize, maxFiles, existing, limit, top)
    {
      hide SinkInv, Retained;
      this.maxSize := maxSize;
      this.maxFiles := maxFiles;
      files := if 0 in existing then existing else existing[0 := []];
      currentSize := if 0 in existing then |existing[0]| else 0;
      history := Retained(existing, maxFiles);
      floor := maxFiles;
      ceiling := Max(top, maxFiles);
      bound := Max(limit, maxSize);
      new;
      OpenedInv(maxSize, maxFiles, existing, limit, top);
    }

    /** The source's constructor as a caller sees it: a zero size or too many files is refused, and so is
        a directory that is to be rotated and cannot be. */
    static method Open(maxSize: nat, maxFiles: nat, rotateOnOpen: bool, existing: Files,
                       renames: (nat, bool) -> bool, ghost limit: nat, ghost top: nat)
      returns (s: Option<RotatingFileSink>)
      requires forall i :: i in existing ==> |existing[i]| <= limit && i <= top
      ensures s.None? <==> (maxSize == 0 || maxFiles > MAX_FILES ||
        (rotateOnOpen && Content(existing, 0) != [] && !AllWork(existing, maxFiles, renames)))
      ensures s.Some? ==> fresh(s.value) && s.value.Valid()
      ensures s.Some? ==>
        (var o := Opened(maxSize, maxFiles, existing, limit, top);
         s.value.View() == if rotateOnOpen && Content(existing, 0) != [] then o.Rotate().(current := 0) else o)
    {
      hide SinkInv, Shifted, Retained, AllWork;
      if maxSize == 0 || maxFiles > MAX_FILES {
        return None;
      }
      var sink := new RotatingFileSink(maxSize, maxFiles, existing, limit, top);
      if rotateOnOpen && sink.currentSize > 0 {
        RotateStep(sink.View());
        SizeReset(sink.View().Rotate());
        var ok, _ := sink.Rotate(renames);
        if !ok {
          return None;
        }
        sink.currentSize := 0;
      }
      s := Some(sink);
    }

    /** `rename_file_`: the target goes, and the source takes its place if the system lets it. */
    method RenameFile(src: nat, target: nat, works: bool) returns (ok: bool)
      requires src in files && src != target
      modifies this`files
      ensures ok == works
      ensures files == if ok then Replaced(old(files), src, target) else Without(old(files), target)
    {
      files := files - {target};
      if works {
        var content := files[src];
        files := (files - {src})[target := content];
      }
      ok := works;
    }

    /** `rotate_`.  A rename that fails is tried once more; `renames` says for each target and attempt
        whether the system lets it.  When both attempts fail for target `at`, the file being written is
        truncated and the error reported. */
    method Rotate(renames: (nat, bool) -> bool) returns (ok: bool, ghost at: nat)
      requires 0 in files
      modifies this`files, this`currentSize
      ensures ok <==> AllWork(old(files), maxFiles, renames)
      ensures ok ==> files == Shifted(old(files), maxFiles) && currentSize == old(currentSize)
      ensures !ok ==> GivesUpAt(old(files), maxFiles, renames, at)
      ensures !ok ==> currentSize == 0 && Abandoned(files, old(files), maxFiles, at)
    {
      hide Shifted, Partway, Final, Same, Abandoned, Replaced, Without;
      ghost var was := files;
      var i: nat := maxFiles;
      at := 0;
      PartwayStart(was, maxFiles);
      while i > 0
        invariant i <= maxFiles
        invariant Partway(files, was, maxFiles, i)
        invariant currentSize == old(currentSize)
        invariant forall j: nat :: i < j && Moved(was, maxFiles, j) ==> Works(renames, j)
      {
        ghost var before := files;
        PartwayStep(before, was, maxFiles, i);
        if i - 1 in files {
          ReplacedAgain(before, i - 1, i);
          var done := RenameFile(i - 1, i, renames(i, false));
          if !done {
            done := RenameFile(i - 1, i, renames(i, true));
            if !done {
              files := files[0 := []];
              currentSize := 0;
              at := i;
              return false, at;
            }
          }
        }
        i := i - 1;
      }
      PartwayDone(files, was, maxFiles);
      files := files[0 := []];
      ok := true;
    }

    /** `sink_it_`: rotate first when the message would take the file over the limit and the file is
        not empty.  If that fails nothing is written; the sink has lost the file being written and goes on
        with an empty one. */
    method SinkIt(msg: seq<byte>, renames: (nat, bool) -> bool) returns (ok: bool, ghost jam: Option<nat>)
      requires Valid()
      modifies this
      ensures 0 in old(files) && Valid() && View() == Do(old(View()), Op.Log(msg, jam))
      ensures ok <==> (old(View()).NeedsRotation(msg) ==> AllWork(old(files), maxFiles, renames))
      ensures ok ==> View() == old(View()).Log(msg)
      ensures old(currentSize) + |msg| <= old(maxSize) ==> ok && files == old(files)[0 := old(files)[0] + msg]
      ensures !ok ==>
        jam.Some? && GivesUpAt(old(files), maxFiles, renames, jam.value) && View() == old(View()).GiveUp(jam.value)
    {
      hide SinkInv, Shifted, GivenUp, AllWork, Works;
      jam := None;
      ghost var was := View();
      LogStep(was, msg);
      BaseFile(was);
      var newSize := currentSize + |msg|;
      if newSize > maxSize {
        if |files[0]| > 0 {
          var rotated;
          rotated, jam := Try(renames);
          if !rotated {
            return false, jam;
          }
          BaseFile(View());
          newSize := |msg|;
        }
      }
      files := files[0 := files[0] + msg];
      currentSize := newSize;
      history := history + msg;
      bound := Max(bound, |msg|);
      ok := true;
    }

    /** A rotation, and what is to be said of the history when it is given up. */
    method Try(renames: (nat, bool) -> bool) returns (ok: bool, ghost jam: Option<nat>)
      requires Valid()
      modifies this
      ensures Valid() && (ok <==> jam == None)
      ensures ok <==> AllWork(old(files), maxFiles, renames)
      ensures ok ==> View() == old(View()).Rotate()
      ensures !ok ==>
        jam.Some? && GivesUpAt(old(files), maxFiles, renames, jam.value) && View() == old(View()).GiveUp(jam.value)
    {
      hide SinkInv, Shifted, GivenUp, AllWork, Works, Abandoned;
      ghost var was := View();
      RotateStep(was);
      BaseFile(was);
      ghost var at;
      ok, at := Rotate(renames);
      if ok {
        jam := None;
      } else {
        jam := Some(at);
        AbandonedMeans(files, was.files, maxFiles, at);
        GiveUpStep(was, at);
        history := was.GiveUp(at).history;
      }
    }

    method RotateNow(renames: (nat, bool) -> bool) returns (ok: bool, ghost jam: Option<nat>)
      requires Valid()
      modifies this
      ensures Valid() && View() == Do(old(View()), Op.RotateNow(jam))
      ensures ok <==> AllWork(old(files), maxFiles, renames)
      ensures ok ==> View() == old(View()).Rotate()
      ensures !ok ==>
        jam.Some? && GivesUpAt(old(files), maxFiles, renames, jam.value) && View() == old(View()).GiveUp(jam.value)
    {
      hide SinkInv, Shifted, GivenUp, AllWork, Works;
      BaseFile(View());
      ok, jam := Try(renames);
    }

    method SetMaxSize(n: nat) returns (accepted: bool)
      requires Valid()
      modifies this
      ensures Valid() && accepted == (n != 0)
      ensures View() == Do(old(View()), Op.SetMaxSize(n))
    {
      DoStep(View(), Op.SetMaxSize(n));
      if n == 0 {
        return false;
      }
      maxSize := n;
      bound := Max(bound, n);
      accepted := true;
    }

    method SetMaxFiles(n: nat) returns (accepted: bool)
      requires Valid()
      modifies this
      ensures Valid() && accepted == (n <= MAX_FILES)
      ensures View() == Do(old(View()), Op.SetMaxFiles(n))
    {
      DoStep(View(), Op.SetMaxFiles(n));
      if n > MAX_FILES {
        return false;
      }
      maxFiles := n;
      floor := Min(floor, n);
      ceiling := Max(ceiling, n);
      accepted := true;
    }
  }

  /** The target gives way to the source. */
  function Replaced(files: Files, src: nat, target: nat): Files
    requires src in files && src != target
  {
    var rest: Files := files - {target, src};
    rest[target := files[src]]
  }

  function Without(files: Files, target: nat): Files {
    files - {target}
  }

  /** Trying again after the target has been removed comes to the same. */
  lemma ReplacedAgain(files: Files, src: nat, target: nat)
    requires src in files && src != target
    ensures src in Without(files, target)
    ensures Without(Without(files, target), target) == Without(files, target)
    ensures Replaced(Without(files, target), src, target) == Replaced(files, src, target)
  {
  }

  predicate Same(files: Files, was: Files, j: nat) {
    (j in files <==> j in was) && (j in files ==> files[j] == was[j])
  }

  /** Index `j` holds what a finished rotation puts there. */
  predicate Final(files: Files, was: Files, n: nat, j: nat) {
    && (j in files <==> Moved(was, n, j) || Stays(was, n, j))
    && (j in files ==> files[j] == if Moved(was, n, j) then was[j - 1] else was[j])
  }

  /** The rename to target `i` works, if not at once then when it is tried again. */
  predicate Works(renames: (nat, bool) -> bool, i: nat) {
    renames(i, false) || renames(i, true)
  }

  ghost predicate AllWork(files: Files, n: nat, renames: (nat, bool) -> bool) {
    forall i: nat :: Moved(files, n, i) ==> Works(renames, i)
  }

  /** The rotation, which goes through the targets from the highest down, ends at `at`. */
  ghost predicate GivesUpAt(files: Files, n: nat, renames: (nat, bool) -> bool, at: nat) {
    && Moved(files, n, at) && !Works(renames, at)
    && forall i: nat :: at < i && Moved(files, n, i) ==> Works(renames, i)
  }

  /** A rotation given up at target `at`: higher indices are done, the target is gone, lower ones are as
      they were, and the file being written is empty. */
  ghost predicate Abandoned(files: Files, was: Files, n: nat, at: nat) {
    && 0 in files && files[0] == [] && at !in files
    && (forall i: nat :: 0 < i < at ==> Same(files, was, i))
    && (forall i: nat :: at < i ==> Final(files, was, n, i))
  }

  lemma SameMaps(a: Files, b: Files)
    requires forall i: nat :: Same(a, b, i)
    ensures a == b
  {
    forall i: nat
      ensures (i in a <==> i in b) && (i in a ==> a[i] == b[i])
    {
      assert Same(a, b, i);
    }
  }

  lemma AbandonedMeans(files: Files, was: Files, n: nat, at: nat)
    requires Abandoned(files, was, n, at) && Moved(was, n, at)
    ensures files == GivenUp(was, n, at)
  {
    hide GivenUp;
    var r := GivenUp(was, n, at);
    GivenUpAt(was, n, at, 0);
    forall i: nat
      ensures Same(files, r, i)
    {
      if i > 0 {
        GivenUpAt(was, n, at, i);
        assert i < at ==> Same(files, was, i);
        assert at < i ==> Final(files, was, n, i);
      }
    }
    SameMaps(files, r);
  }

  /** The descending loop with target `i` next: lower indices are as they were, higher ones are done,
      and index `i` itself has been moved up unless it is the first target. */
  ghost predicate Partway(files: Files, was: Files, n: nat, i: nat) {
    && i <= n
    && (forall j: nat :: j < i ==> Same(files, was, j))
    && (if i == n then Same(files, was, n) else i !in files)
    && (forall j: nat :: j > i ==> Final(files, was, n, j))
  }

  lemma PartwayStart(was: Files, n: nat)
    ensures Partway(was, was, n, n)
  {
  }

  lemma PartwayStep(files: Files, was: Files, n: nat, i: nat)
    requires i > 0 && Partway(files, was, n, i)
    ensures i - 1 in files <==> Moved(was, n, i)
    ensures Partway(if i - 1 in files then Replaced(files, i - 1, i) else files, was, n, i - 1)
    ensures Abandoned(Without(files, i)[0 := []], was, n, i)
  {
    var next := if i - 1 in files then Replaced(files, i - 1, i) else files;
    var lost := Without(files, i)[0 := []];
    assert Same(files, was, i - 1);
    forall j: nat | j < i
      ensures j < i - 1 ==> Same(next, was, j)
      ensures j > 0 ==> Same(lost, was, j)
    {
      assert Same(files, was, j);
    }
    forall j: nat | j > i
      ensures Final(next, was, n, j) && Final(lost, was, n, j)
    {
      assert Final(files, was, n, j);
    }
  }

  lemma PartwayDone(files: Files, was: Files, n: nat)
    requires Partway(files, was, n, 0)
    ensures files[0 := []] == Shifted(was, n)
  {
    hide Shifted;
    var next := files[0 := []];
    forall j: nat
      ensures Same(next, Shifted(was, n), j)
    {
      ShiftedAt(was, n, j);
      assert j > 0 ==> Final(files, was, n, j);
    }
    SameMaps(next, Shifted(was, n));
  }
}
