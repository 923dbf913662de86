/**
 * A research run as its log of completed steps: any number of attempts, each of which reuses what the log holds and
 * can be stopped by a crash between any two writes, by an error or by a cancellation.
 */
module RunSteps {
  datatype Kind = Rewrite | FindPapers | Fetch | Chain | Passages | Read | Write | Verify | Consensus

  /** Verification and consensus run side by side. */
  function Rank(k: Kind): nat {
    match k
    case Rewrite => 0
    case FindPapers => 1
    case Fetch => 2
    case Chain => 3
    case Passages => 4
    case Read => 5
    case Write => 6
    case Verify => 7
    case Consensus => 7
  }

  function KindAt(i: nat): Kind
    requires i < 7
  {
    match i
    case 0 => Rewrite
    case 1 => FindPapers
    case 2 => Fetch
    case 3 => Chain
    case 4 => Passages
    case 5 => Read
    case 6 => Write
  }

  /** A row of run_steps; an error row carries an error instead of a result. */
  datatype Row = Row(kind: Kind, error: bool)

  datatype Status = Unfinished | Done | Cancelled | Failed  // done, whether or not the time was up

  /** One of the two concurrent steps: its number is taken before its row is inserted. */
  datatype Half = Waiting | Numbered(n: nat) | Settled

  datatype Pc =
    | Off
    | Before(next: nat)                     // before the step of this rank; 7: before verification
    | NothingFound | NothingFoundLogged     // no passages: an error row, and the run is done
    | Checking(verify: Half, consensus: Half)
    | Failing | FailureNumbered(n: nat) | FailureLogged  // an error escaped: an error row, and the run has failed
    | Ending(status: Status)

  /** When one of the two concurrent steps raises an error, the other is not stopped. */
  datatype Left = NoTask | Task(kind: Kind, half: Half)

  datatype Run = Run(
    rows: map<nat, Row>, counter: nat, finished: set<Kind>, pc: Pc, left: Left, deep: bool, status: Status)

  const VERIFICATION := 7

  datatype Step =
    | Start(last: nat)  // load_progress: the highest number kept, or 0
    | Reuse             // the step is in the log
    | Perform           // the step is carried out and logged
    | SkipChain         // quick mode, or no time left
    | FindNothing | LogNothing
    | BeginChecks | Number(k: Kind) | Insert(k: Kind) | SkipConsensus
    | Store
    | Cancel
    | Throw | ThrowAfterNumber | ThrowIn(k: Kind)  // in verification, in consensus
    | NumberFailure | LogFailure
    | LeftNumber | LeftInsert | LeftEnds           // the step left running goes on, or ends without a row
    | Finish                                       // the status is written
    | Escape                                       // an error while the run is being ended: nobody handles it
    | Crash

  /** The rows a new attempt keeps. */
  predicate Kept(r: Row) { r.kind != Verify && r.kind != Consensus && !r.error }

  function KeptRows(rows: map<nat, Row>): map<nat, Row> {
    map n | n in rows && Kept(rows[n]) :: rows[n]
  }

  predicate IsLast(rows: map<nat, Row>, last: nat) {
    (forall n :: n in rows ==> n <= last) && (last in rows || last == 0)
  }

  /** The kinds with a completed row. */
  function Kinds(rows: map<nat, Row>): set<Kind> {
    set n | n in rows && !rows[n].error :: rows[n].kind
  }

  predicate Enabled(s: Run, t: Step) {
    match t
    case Start(last) => s.pc.Off? && s.left.NoTask? && s.status.Unfinished? && IsLast(KeptRows(s.rows), last)
    case Reuse => s.pc.Before? && s.pc.next < VERIFICATION && KindAt(s.pc.next) in s.finished
    case Perform =>
      && s.pc.Before? && s.pc.next < VERIFICATION && KindAt(s.pc.next) !in s.finished
      && (KindAt(s.pc.next) == Chain ==> s.deep)
    case SkipChain => s.pc.Before? && s.pc.next == Rank(Chain) && Chain !in s.finished
    case FindNothing => s.pc == Before(Rank(Read))
    case LogNothing => s.pc.NothingFound?
    case BeginChecks => s.pc == Before(VERIFICATION)
    case Number(k) =>
      s.pc.Checking? && ((k == Verify && s.pc.verify.Waiting?) || (k == Consensus && s.pc.consensus.Waiting?))
    case Insert(k) =>
      s.pc.Checking? && ((k == Verify && s.pc.verify.Numbered?) || (k == Consensus && s.pc.consensus.Numbered?))
    case SkipConsensus => s.pc.Checking? && s.pc.consensus.Waiting?
    case Store => s.pc == Checking(Settled, Settled)
    case Cancel => s.pc.Before?
    case Throw => s.pc.Before? || s.pc.NothingFound? || s.pc.NothingFoundLogged? || s.pc == Checking(Settled, Settled)
    case ThrowAfterNumber => s.pc.Before? || s.pc.NothingFound?
    case ThrowIn(k) => s.pc.Checking? && (k == Verify || k == Consensus)
    case NumberFailure => s.pc.Failing?
    case LogFailure => s.pc.FailureNumbered?
    case LeftNumber => s.left.Task? && s.left.half.Waiting?
    case LeftInsert => s.left.Task? && s.left.half.Numbered?
    case LeftEnds => s.left.Task?
    case Finish => s.pc.Ending? || s.pc.NothingFoundLogged? || s.pc.FailureLogged?
    case Escape => s.pc.Ending? || s.pc.NothingFoundLogged? || s.pc.Failing? || s.pc.FailureNumbered? ||
        s.pc.FailureLogged?
    case Crash => !s.pc.Off? || s.left.Task?
  }

  function Logged(s: Run, k: Kind, error: bool, pc: Pc): Run {
    s.(counter := s.counter + 1, rows := s.rows[s.counter + 1 := Row(k, error)], pc := pc)
  }

  function Apply(s: Run, t: Step): Run
    requires Enabled(s, t)
  {
    match t
    case Start(last) =>
      var kept := KeptRows(s.rows);
      s.(rows := kept, counter := last, finished := Kinds(kept), pc := Before(0))
    case Reuse => s.(pc := Before(s.pc.next + 1))
    case Perform => Logged(s, KindAt(s.pc.next), false, Before(s.pc.next + 1))
    case SkipChain => s.(pc := Before(s.pc.next + 1))
    case FindNothing => s.(pc := NothingFound)
    case LogNothing => Logged(s, Write, true, NothingFoundLogged)
    case BeginChecks => s.(pc := Checking(Waiting, Waiting))
    case Number(k) =>
      var n := Numbered(s.counter + 1);
      s.(counter := s.counter + 1, pc := if k == Verify then s.pc.(verify := n) else s.pc.(consensus := n))
    case Insert(k) =>
      if k == Verify then s.(rows := s.rows[s.pc.verify.n := Row(Verify, false)], pc := s.pc.(verify := Settled))
      else s.(rows := s.rows[s.pc.consensus.n := Row(Consensus, false)], pc := s.pc.(consensus := Settled))
    case SkipConsensus => s.(pc := s.pc.(consensus := Settled))
    case Store => s.(pc := Ending(Done))
    case Cancel => s.(pc := Ending(Cancelled))
    case Throw => s.(pc := Failing)
    case ThrowAfterNumber => s.(pc := Failing, counter := s.counter + 1)
    case ThrowIn(k) =>
      var other := if k == Verify then s.pc.consensus else s.pc.verify;
      s.(pc := Failing,
         left := if other.Settled? then NoTask else Task(if k == Verify then Consensus else Verify, other))
    case NumberFailure => s.(pc := FailureNumbered(s.counter + 1), counter := s.counter + 1)
    case LogFailure => s.(pc := FailureLogged, rows := s.rows[s.pc.n := Row(Write, true)])
    case LeftNumber => s.(left := Task(s.left.kind, Numbered(s.counter + 1)), counter := s.counter + 1)
    case LeftInsert => s.(left := NoTask, rows := s.rows[s.left.half.n := Row(s.left.kind, false)])
    case LeftEnds => s.(left := NoTask)
    case Escape => s.(pc := Off)
    case Finish =>
      s.(pc := Off, status := if s.pc.Ending? then s.pc.status else if s.pc.NothingFoundLogged? then Done else Failed)
    case Crash => s.(pc := Off, left := NoTask)
  }

  predicate Valid(s: Run, run: seq<Step>)
    decreases |run|
  {
    run == [] || (Enabled(s, run[0]) && Valid(Apply(s, run[0]), run[1..]))
  }

  function Final(s: Run, run: seq<Step>): Run
    requires Valid(s, run)
    decreases |run|
  {
    if run == [] then s else Final(Apply(s, run[0]), run[1..])
  }

  function Fresh(deep: bool): Run { Run(map[], 0, {}, Off, NoTask, deep, Unfinished) }

  // ----- what every attempt keeps ----------------------------------------------------------------------------------

  /** All steps of lower rank are in the set; the chain step is optional. */
  predicate UpTo(kinds: set<Kind>, i: nat) {
    && (i > 0 ==> Rewrite in kinds) && (i > 1 ==> FindPapers in kinds) && (i > 2 ==> Fetch in kinds)
    && (i > 4 ==> Passages in kinds) && (i > 5 ==> Read in kinds) && (i > 6 ==> Write in kinds)
  }

  ghost predicate Closed(kinds: set<Kind>) {
    forall k :: k in kinds && k != Chain ==> UpTo(kinds, Rank(k))
  }

  /** Two rows, as the log may hold them: one completed row per kind, in pipeline order, the chain step aside. */
  predicate Compatible(m: nat, a: Row, n: nat, b: Row) {
    a.error || b.error
    || ((a.kind == b.kind ==> m == n) && (m < n && a.kind != Chain && b.kind != Chain ==> Rank(a.kind) <= Rank(b.kind)))
  }

  ghost predicate Ordered(rows: map<nat, Row>) {
    && (forall m, n :: m in rows && n in rows ==> Compatible(m, rows[m], n, rows[n]))
    && (forall n :: n in rows && rows[n].error ==> rows[n].kind == Write)
  }

  lemma {:induction false} OrderedAdds(rows: map<nat, Row>, n: nat, r: Row)
    requires Ordered(rows) && n !in rows && (r.error ==> r.kind == Write)
    requires forall m :: m in rows ==> Compatible(m, rows[m], n, r) && Compatible(n, r, m, rows[m])
    ensures Ordered(rows[n := r])
  {}

  lemma {:induction false} ClosedAdds(kinds: set<Kind>, k: Kind)
    requires Closed(kinds) && (k == Chain || UpTo(kinds, Rank(k)))
    ensures Closed(kinds + {k})
  {}

  lemma {:induction false} RowKind(rows: map<nat, Row>, n: nat)
    requires n in rows && !rows[n].error
    ensures rows[n].kind in Kinds(rows)
  {}

  ghost predicate NoErrors(rows: map<nat, Row>) { forall n :: n in rows ==> !rows[n].error }

  ghost predicate OneError(rows: map<nat, Row>) {
    forall m, n :: m in rows && n in rows && rows[m].error && rows[n].error ==> m == n
  }

  /** Every completed row of a step before verification has a lower number than n. */
  ghost predicate After(rows: map<nat, Row>, n: nat) {
    forall m :: m in rows && !rows[m].error && Rank(rows[m].kind) < VERIFICATION ==> m < n
  }

  /** A number that was taken and not used yet. */
  ghost predicate Taken(s: Run, n: nat) { n <= s.counter && n !in s.rows && After(s.rows, n) }

  ghost predicate PcOk(s: Run) {
    var kinds := Kinds(s.rows);
    && (s.pc.Off? || s.status.Unfinished?)
    && ((s.pc.Off? && s.left.NoTask?) || forall n :: n in s.rows ==> n <= s.counter)
    && (s.pc.Before? || s.pc.NothingFound? || s.pc.Checking? ==> NoErrors(s.rows))
    && match s.pc
       case Before(i) =>
         && i <= VERIFICATION && Verify !in kinds && Consensus !in kinds && UpTo(kinds, i)
         && s.finished <= kinds && Closed(s.finished)
         && (forall k :: k in kinds && k !in s.finished ==> Rank(k) < i)
       case NothingFound =>
         && Verify !in kinds && Consensus !in kinds && s.finished <= kinds
         && (forall k :: k in kinds && k !in s.finished ==> Rank(k) < Rank(Read))
       case Checking(v, c) =>
         && UpTo(kinds, VERIFICATION)
         && (v.Settled? <==> Verify in kinds) && (Consensus in kinds ==> c.Settled?)
         && (v.Numbered? ==> Taken(s, v.n)) && (c.Numbered? ==> Taken(s, c.n))
         && (v.Numbered? && c.Numbered? ==> v.n != c.n)
       case NothingFoundLogged => OneError(s.rows)
       case FailureNumbered(n) => Taken(s, n) && forall m :: m in s.rows && m > n ==> !s.rows[m].error
       case Ending(_) => NoErrors(s.rows)
       case Off => (s.status.Done? ==> OneError(s.rows)) && (s.status.Cancelled? ==> NoErrors(s.rows))
       case _ => true
  }

  /** A step left running belongs to a run that is failing or has failed, and holds a number of its own. */
  ghost predicate LeftOk(s: Run) {
    s.left.Task? ==>
      && (s.pc.Failing? || s.pc.FailureNumbered? || s.pc.FailureLogged? || s.pc.Off?)
      && !s.status.Done? && !s.status.Cancelled?
      && (s.left.kind == Verify || s.left.kind == Consensus) && s.left.kind !in Kinds(s.rows)
      && UpTo(Kinds(s.rows), VERIFICATION) && !s.left.half.Settled?
      && (s.left.half.Numbered? ==>
            Taken(s, s.left.half.n) && (s.pc.FailureNumbered? ==> s.left.half.n != s.pc.n))
  }

  ghost predicate LogOk(rows: map<nat, Row>, deep: bool) {
    Ordered(rows) && Closed(Kinds(rows)) && (!deep ==> Chain !in Kinds(rows))
  }

  ghost predicate Inv(s: Run) {
    LogOk(s.rows, s.deep) && PcOk(s) && LeftOk(s)
  }

  lemma {:induction false} KindsAdd(rows: map<nat, Row>, n: nat, r: Row)
    requires n !in rows
    ensures Kinds(rows[n := r]) == if r.error then Kinds(rows) else Kinds(rows) + {r.kind}
  {
    var more := rows[n := r];
    forall k | k in Kinds(rows) ensures k in Kinds(more) {
      var m :| m in rows && !rows[m].error && rows[m].kind == k;
      assert more[m] == rows[m];
    }
    assert more[n] == r;
  }

  lemma {:induction false} KindsKept(rows: map<nat, Row>)
    ensures Kinds(KeptRows(rows)) == Kinds(rows) - {Verify, Consensus}
  {
    forall k | k in Kinds(rows) - {Verify, Consensus} ensures k in Kinds(KeptRows(rows)) {
      var m :| m in rows && !rows[m].error && rows[m].kind == k;
      assert KeptRows(rows)[m] == rows[m];
    }
  }

  lemma {:induction false} ClosedBefore(kinds: set<Kind>)
    requires Closed(kinds)
    ensures Closed(kinds - {Verify, Consensus})
  {
    var fewer := kinds - {Verify, Consensus};
    forall k | k in fewer && k != Chain ensures UpTo(fewer, Rank(k)) { assert UpTo(kinds, Rank(k)); }
  }

  lemma {:induction false} KeptOrdered(rows: map<nat, Row>)
    requires Ordered(rows)
    ensures Ordered(KeptRows(rows))
  {
    var kept := KeptRows(rows);
    forall m, n | m in kept && n in kept ensures Compatible(m, kept[m], n, kept[n]) {
      assert Compatible(m, rows[m], n, rows[n]);
    }
  }

  lemma {:induction false} StartKeeps(s: Run, last: nat)
    requires Inv(s) && Enabled(s, Start(last))
    ensures Inv(Apply(s, Start(last)))
  {
    KindsKept(s.rows);
    KeptOrdered(s.rows);
    ClosedBefore(Kinds(s.rows));
    StartPc(s, last);
  }

  lemma {:induction false} StartPc(s: Run, last: nat)
    requires Enabled(s, Start(last)) && Closed(Kinds(KeptRows(s.rows)))
    requires Kinds(KeptRows(s.rows)) == Kinds(s.rows) - {Verify, Consensus}
    ensures PcOk(Apply(s, Start(last)))
  {}

  lemma {:induction false} RowFits(rows: map<nat, Row>, deep: bool, n: nat, r: Row)
    requires LogOk(rows, deep) && n !in rows && !r.error && (r.kind == Chain ==> deep)
    requires r.kind == Chain || UpTo(Kinds(rows), Rank(r.kind))
    requires forall m :: m in rows ==> Compatible(m, rows[m], n, r) && Compatible(n, r, m, rows[m])
    ensures LogOk(rows[n := r], deep)
  {
    OrderedAdds(rows, n, r);
    KindsAdd(rows, n, r);
    ClosedAdds(Kinds(rows), r.kind);
  }

  lemma {:induction false} PerformFits(s: Run, m: nat)
    requires Inv(s) && Enabled(s, Perform) && m in s.rows && KindAt(s.pc.next) !in Kinds(s.rows)
    ensures var r := Row(KindAt(s.pc.next), false);
            Compatible(m, s.rows[m], s.counter + 1, r) && Compatible(s.counter + 1, r, m, s.rows[m])
  {
    RowKind(s.rows, m);
  }

  lemma {:induction false} NotPerformed(s: Run)
    requires PcOk(s) && Enabled(s, Perform)
    ensures KindAt(s.pc.next) !in Kinds(s.rows)
  {}

  lemma {:induction false} PerformKeeps(s: Run)
    requires Inv(s) && Enabled(s, Perform)
    ensures Inv(Apply(s, Perform))
  {
    PerformLog(s);
    KindsAdd(s.rows, s.counter + 1, Row(KindAt(s.pc.next), false));
    PerformPc(s);
  }

  lemma {:induction false} PerformLog(s: Run)
    requires Inv(s) && Enabled(s, Perform)
    ensures LogOk(s.rows[s.counter + 1 := Row(KindAt(s.pc.next), false)], s.deep)
  {
    var n, k := s.counter + 1, KindAt(s.pc.next);
    NotPerformed(s);
    forall m | m in s.rows
      ensures Compatible(m, s.rows[m], n, Row(k, false)) && Compatible(n, Row(k, false), m, s.rows[m])
    {
      PerformFits(s, m);
    }
    RowFits(s.rows, s.deep, n, Row(k, false));
  }

  lemma {:induction false} PerformPc(s: Run)
    requires PcOk(s) && LeftOk(s) && Enabled(s, Perform)
    requires Kinds(Apply(s, Perform).rows) == Kinds(s.rows) + {KindAt(s.pc.next)}
    ensures PcOk(Apply(s, Perform)) && LeftOk(Apply(s, Perform))
  {}

  lemma {:induction false} InsertFits(s: Run, k: Kind, m: nat)
    requires Inv(s) && Enabled(s, Insert(k)) && m in s.rows
    ensures var n := if k == Verify then s.pc.verify.n else s.pc.consensus.n;
            && n !in s.rows
            && Compatible(m, s.rows[m], n, Row(k, false)) && Compatible(n, Row(k, false), m, s.rows[m])
  {
    RowKind(s.rows, m);
  }

  lemma {:induction false} InsertKeeps(s: Run, k: Kind)
    requires Inv(s) && Enabled(s, Insert(k))
    ensures Inv(Apply(s, Insert(k)))
  {
    InsertLog(s, k);
    KindsAdd(s.rows, if k == Verify then s.pc.verify.n else s.pc.consensus.n, Row(k, false));
    InsertPc(s, k);
  }

  lemma {:induction false} InsertLog(s: Run, k: Kind)
    requires Inv(s) && Enabled(s, Insert(k))
    ensures LogOk(Apply(s, Insert(k)).rows, s.deep)
  {
    var n, r := if k == Verify then s.pc.verify.n else s.pc.consensus.n, Row(k, false);
    forall m | m in s.rows ensures Compatible(m, s.rows[m], n, r) && Compatible(n, r, m, s.rows[m]) {
      InsertFits(s, k, m);
    }
    RowFits(s.rows, s.deep, n, r);
  }

  lemma {:induction false} InsertPc(s: Run, k: Kind)
    requires PcOk(s) && LeftOk(s) && Enabled(s, Insert(k))
    requires Kinds(Apply(s, Insert(k)).rows) == Kinds(s.rows) + {k}
    ensures PcOk(Apply(s, Insert(k))) && LeftOk(Apply(s, Insert(k)))
  {}

  lemma {:induction false} ErrorKeeps(s: Run, t: Step)
    requires Inv(s) && Enabled(s, t) && (t.LogNothing? || t.LogFailure?)
    ensures Inv(Apply(s, t))
  {
    ErrorLog(s, t);
    ErrorPc(s, t);
  }

  function ErrorNumber(s: Run, t: Step): nat
    requires Enabled(s, t) && (t.LogNothing? || t.LogFailure?)
  {
    if t.LogNothing? then s.counter + 1 else s.pc.n
  }

  lemma {:induction false} ErrorLog(s: Run, t: Step)
    requires LogOk(s.rows, s.deep) && Enabled(s, t) && (t.LogNothing? || t.LogFailure?) && ErrorNumber(s, t) !in s.rows
    ensures LogOk(Apply(s, t).rows, Apply(s, t).deep)
  {
    ErrorFits(s.rows, s.deep, ErrorNumber(s, t));
  }

  lemma {:induction false} ErrorFits(rows: map<nat, Row>, deep: bool, n: nat)
    requires LogOk(rows, deep) && n !in rows
    ensures LogOk(rows[n := Row(Write, true)], deep)
  {
    OrderedAdds(rows, n, Row(Write, true));
    KindsAdd(rows, n, Row(Write, true));
  }

  lemma {:induction false} ErrorPc(s: Run, t: Step)
    requires PcOk(s) && LeftOk(s) && Enabled(s, t) && (t.LogNothing? || t.LogFailure?)
    ensures PcOk(Apply(s, t)) && LeftOk(Apply(s, t))
  {
    KindsAdd(s.rows, ErrorNumber(s, t), Row(Write, true));
  }

  lemma {:induction false} LeftKeeps(s: Run)
    requires Inv(s) && Enabled(s, LeftInsert)
    ensures Inv(Apply(s, LeftInsert))
  {
    LeftLog(s);
    KindsAdd(s.rows, s.left.half.n, Row(s.left.kind, false));
    LeftPc(s);
  }

  lemma {:induction false} LeftLog(s: Run)
    requires Inv(s) && Enabled(s, LeftInsert)
    ensures LogOk(Apply(s, LeftInsert).rows, s.deep)
  {
    var n, r := s.left.half.n, Row(s.left.kind, false);
    forall m | m in s.rows ensures Compatible(m, s.rows[m], n, r) && Compatible(n, r, m, s.rows[m]) {
      if !s.rows[m].error { RowKind(s.rows, m); }
    }
    RowFits(s.rows, s.deep, n, r);
  }

  lemma {:induction false} LeftPc(s: Run)
    requires PcOk(s) && LeftOk(s) && Enabled(s, LeftInsert)
    ensures PcOk(Apply(s, LeftInsert)) && LeftOk(Apply(s, LeftInsert))
  {}

  lemma {:induction false} StepKeeps(s: Run, t: Step)
    requires Inv(s) && Enabled(s, t)
    ensures Inv(Apply(s, t))
  {
    match t
    case Start(last) => StartKeeps(s, last);
    case Perform => PerformKeeps(s);
    case Insert(k) => InsertKeeps(s, k);
    case LogNothing => ErrorKeeps(s, t);
    case LogFailure => ErrorKeeps(s, t);
    case LeftInsert => LeftKeeps(s);
    case _ => QuietKeeps(s, t);
  }

  /** Steps that insert and delete nothing. */
  predicate Quiet(t: Step) {
    !t.Start? && !t.Perform? && !t.Insert? && !t.LogNothing? && !t.LogFailure? && !t.LeftInsert?
  }

  lemma {:induction false} QuietKeeps(s: Run, t: Step)
    requires Inv(s) && Enabled(s, t) && Quiet(t)
    ensures Inv(Apply(s, t))
  {
    if Checks(t) { ChecksPc(s, t); } else if Fails(t) { FailsPc(s, t); } else { QuietPc(s, t); }
  }

  predicate Checks(t: Step) { t.BeginChecks? || t.Number? || t.SkipConsensus? || t.Store? }

  predicate Fails(t: Step) {
    t.ThrowIn? || t.NumberFailure? || t.LeftNumber? || t.LeftEnds? || t.Escape? || t.Crash? || t.Finish?
  }

  lemma {:induction false} ChecksPc(s: Run, t: Step)
    requires PcOk(s) && LeftOk(s) && Enabled(s, t) && Ordered(s.rows) && Closed(Kinds(s.rows)) && Checks(t)
    ensures PcOk(Apply(s, t)) && LeftOk(Apply(s, t)) && Apply(s, t).rows == s.rows && Apply(s, t).deep == s.deep
  {}

  lemma {:induction false} FailsPc(s: Run, t: Step)
    requires PcOk(s) && LeftOk(s) && Enabled(s, t) && Fails(t)
    ensures PcOk(Apply(s, t)) && LeftOk(Apply(s, t)) && Apply(s, t).rows == s.rows && Apply(s, t).deep == s.deep
  {}

  lemma {:induction false} QuietPc(s: Run, t: Step)
    requires PcOk(s) && LeftOk(s) && Enabled(s, t) && Ordered(s.rows) && Closed(Kinds(s.rows))
    requires Quiet(t) && !Checks(t) && !Fails(t)
    ensures PcOk(Apply(s, t)) && LeftOk(Apply(s, t)) && Apply(s, t).rows == s.rows && Apply(s, t).deep == s.deep
  {}

  lemma {:induction false} RunKeeps(s: Run, run: seq<Step>)
    requires Valid(s, run) && Inv(s)
    ensures Inv(Final(s, run))
    decreases |run|
  {
    if run != [] {
      StepKeeps(s, run[0]);
      RunKeeps(Apply(s, run[0]), run[1..]);
    }
  }

  // ----- resuming --------------------------------------------------------------------------------------------------

  /** The row a step inserts, if it does. */
  predicate Inserts(s: Run, t: Step, n: nat, r: Row)
    requires Enabled(s, t)
  {
    match t
    case Perform => n == s.counter + 1 && r == Row(KindAt(s.pc.next), false)
    case LogNothing => n == s.counter + 1 && r == Row(Write, true)
    case LogFailure => n == s.pc.n && r == Row(Write, true)
    case LeftInsert => n == s.left.half.n && r == Row(s.left.kind, false)
    case Insert(k) => n == (if k == Verify then s.pc.verify.n else s.pc.consensus.n) && r == Row(k, false)
    case _ => false
  }

  /**
   * Over any number of attempts, and with a concurrent step still running after the other one failed, no number is used
   * twice, and a new row comes after every completed row of the steps before verification.
   */
  lemma {:induction false} NumbersAreFresh(deep: bool, run: seq<Step>, t: Step, n: nat, r: Row)
    requires Valid(Fresh(deep), run) && Enabled(Final(Fresh(deep), run), t)
    requires Inserts(Final(Fresh(deep), run), t, n, r)
    ensures var s := Final(Fresh(deep), run);
            n !in s.rows && Apply(s, t).rows == s.rows[n := r] && After(s.rows, n)
  {
    RunKeeps(Fresh(deep), run);
    FreshNumber(Final(Fresh(deep), run), t, n, r);
  }

  lemma {:induction false} FreshNumber(s: Run, t: Step, n: nat, r: Row)
    requires PcOk(s) && LeftOk(s) && Enabled(s, t) && Inserts(s, t, n, r)
    ensures n !in s.rows && Apply(s, t).rows == s.rows[n := r] && After(s.rows, n)
  {}

  /** Rows in the order of their numbers follow the pipeline: no kind twice, the chain step aside in deep mode. */
  lemma {:induction false} LogFollowsPipeline(deep: bool, run: seq<Step>, m: nat, n: nat)
    requires Valid(Fresh(deep), run)
    requires var rows := Final(Fresh(deep), run).rows;
             m in rows && n in rows && m < n && !rows[m].error && !rows[n].error
    ensures var rows := Final(Fresh(deep), run).rows;
            && rows[m].kind != rows[n].kind
            && (!deep ==> rows[m].kind != Chain && rows[n].kind != Chain)
            && (rows[m].kind != Chain && rows[n].kind != Chain ==>
                  Rank(rows[m].kind) < Rank(rows[n].kind)
                  || {rows[m].kind, rows[n].kind} == {Verify, Consensus})
  {
    RunKeeps(Fresh(deep), run);
    DeepStays(Fresh(deep), run);
    var rows := Final(Fresh(deep), run).rows;
    assert Compatible(m, rows[m], n, rows[n]);
    RowKind(rows, m);
    RowKind(rows, n);
  }

  lemma {:induction false} DeepStays(s: Run, run: seq<Step>)
    requires Valid(s, run)
    ensures Final(s, run).deep == s.deep
    decreases |run|
  {
    if run != [] { DeepStays(Apply(s, run[0]), run[1..]); }
  }

  /** How often a step before verification is carried out. */
  function Performed(s: Run, run: seq<Step>, k: Kind): nat
    requires Valid(s, run)
    decreases |run|
  {
    if run == [] then 0
    else (if run[0].Perform? && KindAt(s.pc.next) == k then 1 else 0) + Performed(Apply(s, run[0]), run[1..], k)
  }

  lemma {:induction false} KindStays(s: Run, t: Step, k: Kind)
    requires PcOk(s) && LeftOk(s) && Enabled(s, t) && Rank(k) < VERIFICATION
    ensures k in Kinds(s.rows) ==> k in Kinds(Apply(s, t).rows)
    ensures t.Perform? && KindAt(s.pc.next) == k ==> k in Kinds(Apply(s, t).rows)
  {
    match t
    case Start(last) => KindsKept(s.rows);
    case Perform =>
      KindsAdd(s.rows, s.counter + 1, Row(KindAt(s.pc.next), false));
    case Insert(j) => KindsAdd(s.rows, if j == Verify then s.pc.verify.n else s.pc.consensus.n, Row(j, false));
    case LogNothing => KindsAdd(s.rows, s.counter + 1, Row(Write, true));
    case LogFailure => KindsAdd(s.rows, s.pc.n, Row(Write, true));
    case LeftInsert => KindsAdd(s.rows, s.left.half.n, Row(s.left.kind, false));
    case _ =>
  }

  lemma {:induction false} PerformedWithin(s: Run, run: seq<Step>, k: Kind)
    requires Inv(s) && Valid(s, run) && Rank(k) < VERIFICATION
    ensures Performed(s, run, k) + (if k in Kinds(s.rows) then 1 else 0) <= 1
    decreases |run|
  {
    if run != [] {
      if run[0].Perform? { NotPerformed(s); }
      KindStays(s, run[0], k);
      StepKeeps(s, run[0]);
      PerformedWithin(Apply(s, run[0]), run[1..], k);
    }
  }

  /** Over any number of crashes and resumptions, a step before verification is completed at most once. */
  lemma {:induction false} CompletedStepsAreNotRepeated(deep: bool, run: seq<Step>, k: Kind)
    requires Valid(Fresh(deep), run) && Rank(k) < VERIFICATION
    ensures Performed(Fresh(deep), run, k) <= 1
  {
    PerformedWithin(Fresh(deep), run, k);
  }

  // ----- one row per type ------------------------------------------------------------------------------------------

  ghost predicate HasKind(rows: map<nat, Row>, k: Kind) { exists n :: n in rows && rows[n].kind == k }

  ghost predicate OneEach(rows: map<nat, Row>) {
    forall m, n :: m in rows && n in rows && rows[m].kind == rows[n].kind ==> m == n
  }

  lemma {:induction false} OneEachAdds(rows: map<nat, Row>, n: nat, r: Row)
    requires n !in rows
    ensures OneEach(rows[n := r]) <==> OneEach(rows) && !HasKind(rows, r.kind)
  {
    var more := rows[n := r];
    assert more[n] == r;
    if OneEach(more) {
      forall a, b | a in rows && b in rows && rows[a].kind == rows[b].kind ensures a == b {
        assert more[a] == rows[a] && more[b] == rows[b];
      }
    }
    if HasKind(rows, r.kind) {
      var m :| m in rows && rows[m].kind == r.kind;
      assert more[m] == rows[m] && m != n;
    }
  }

  /** Logging an error doubles a type: the answer is in the log already, or another error row is. */
  ghost predicate Doubles(s: Run, t: Step)
    requires Enabled(s, t)
  {
    match t
    case LogNothing => Write in s.finished
    case LogFailure => HasKind(s.rows, Write)
    case _ => false
  }

  lemma {:induction false} ErrorDoubles(s: Run, t: Step)
    requires Inv(s) && Enabled(s, t) && (t.LogNothing? || t.LogFailure?)
    ensures HasKind(s.rows, Write) <==> Doubles(s, t)
    ensures ErrorNumber(s, t) !in s.rows && Apply(s, t).rows == s.rows[ErrorNumber(s, t) := Row(Write, true)]
  {
    if t.LogNothing? { WriteIsFinished(s); }
  }

  lemma {:induction false} WriteIsFinished(s: Run)
    requires PcOk(s) && s.pc.NothingFound?
    ensures HasKind(s.rows, Write) <==> Write in s.finished
  {
    if HasKind(s.rows, Write) {
      var n :| n in s.rows && s.rows[n].kind == Write;
      RowKind(s.rows, n);
    }
    assert Write in s.finished ==> Write in Kinds(s.rows);
  }

  lemma {:induction false} InsertIsNew(s: Run, t: Step, n: nat, r: Row)
    requires Inv(s) && Enabled(s, t) && Inserts(s, t, n, r) && !r.error
    ensures !HasKind(s.rows, r.kind)
  {
    if t.Perform? { NotPerformed(s); }
    forall m | m in s.rows ensures s.rows[m].kind != r.kind {
      if !s.rows[m].error { RowKind(s.rows, m); }
    }
  }

  lemma {:induction false} StartIsClean(s: Run, last: nat)
    requires Inv(s) && Enabled(s, Start(last))
    ensures OneEach(Apply(s, Start(last)).rows)
  {
    var kept := KeptRows(s.rows);
    forall m, n | m in kept && n in kept && kept[m].kind == kept[n].kind ensures m == n {
      assert Compatible(m, s.rows[m], n, s.rows[n]);
    }
  }

  lemma {:induction false} InsertingKeepsOneEach(s: Run, t: Step, n: nat, r: Row)
    requires Inv(s) && Enabled(s, t) && Inserts(s, t, n, r) && !r.error
    ensures OneEach(Apply(s, t).rows) <==> OneEach(s.rows)
  {
    FreshNumber(s, t, n, r);
    InsertIsNew(s, t, n, r);
    OneEachAdds(s.rows, n, r);
  }

  /**
   * A step leaves the log with two rows of a type if and only if it had two and was not cleaned, or the step doubles.
   */
  lemma {:induction false} DoublesIff(s: Run, t: Step)
    requires Inv(s) && Enabled(s, t)
    ensures !OneEach(Apply(s, t).rows) <==> !t.Start? && (!OneEach(s.rows) || Doubles(s, t))
  {
    match t
    case Start(last) => StartIsClean(s, last);
    case Perform => InsertingKeepsOneEach(s, t, s.counter + 1, Row(KindAt(s.pc.next), false));
    case Insert(k) =>
      InsertingKeepsOneEach(s, t, if k == Verify then s.pc.verify.n else s.pc.consensus.n, Row(k, false));
    case LeftInsert => InsertingKeepsOneEach(s, t, s.left.half.n, Row(s.left.kind, false));
    case LogNothing =>
      ErrorDoubles(s, t);
      OneEachAdds(s.rows, ErrorNumber(s, t), Row(Write, true));
    case LogFailure =>
      ErrorDoubles(s, t);
      OneEachAdds(s.rows, ErrorNumber(s, t), Row(Write, true));
    case _ =>
  }

  /** Some step since the last attempt began has doubled a type. */
  ghost predicate Doubled(s: Run, run: seq<Step>, already: bool)
    requires Valid(s, run)
    decreases |run|
  {
    if run == [] then already
    else Doubled(Apply(s, run[0]), run[1..], !run[0].Start? && (already || Doubles(s, run[0])))
  }

  lemma {:induction false} DoubledOver(s: Run, run: seq<Step>)
    requires Inv(s) && Valid(s, run)
    ensures !OneEach(Final(s, run).rows) <==> Doubled(s, run, !OneEach(s.rows))
    decreases |run|
  {
    if run != [] {
      DoublesIff(s, run[0]);
      StepKeeps(s, run[0]);
      DoubledOver(Apply(s, run[0]), run[1..]);
    }
  }

  /**
   * Over any number of attempts there is at most one row per type, unless since the last attempt began an error row was
   * added to a log that had a write row: by a run without passages that had taken over the write step from the log, or
   * by an error after the answer was written or after another error row.
   */
  lemma {:induction false} OneRowPerTypeIff(deep: bool, run: seq<Step>)
    requires Valid(Fresh(deep), run)
    ensures !OneEach(Final(Fresh(deep), run).rows) <==> Doubled(Fresh(deep), run, false)
  {
    DoubledOver(Fresh(deep), run);
  }

  /** On a run that has not failed only the first of these is possible. */
  lemma {:induction false} OneRowUnlessPassagesGone(deep: bool, run: seq<Step>)
    requires Valid(Fresh(deep), run)
    requires forall i :: 0 <= i < |run| ==> !run[i].LogFailure?
    requires NothingFoundAfresh(Fresh(deep), run)
    ensures OneEach(Final(Fresh(deep), run).rows)
  {
    NeverDoubled(Fresh(deep), run);
    OneRowPerTypeIff(deep, run);
  }

  /** Whenever a run finds itself without passages, it has not taken over the write step. */
  predicate NothingFoundAfresh(s: Run, run: seq<Step>)
    requires Valid(s, run)
    decreases |run|
  {
    run == [] || ((run[0].LogNothing? ==> Write !in s.finished) && NothingFoundAfresh(Apply(s, run[0]), run[1..]))
  }

  lemma {:induction false} NeverDoubled(s: Run, run: seq<Step>)
    requires Valid(s, run) && NothingFoundAfresh(s, run) && forall i :: 0 <= i < |run| ==> !run[i].LogFailure?
    ensures !Doubled(s, run, false)
    decreases |run|
  {
    if run != [] { NeverDoubled(Apply(s, run[0]), run[1..]); }
  }
}
