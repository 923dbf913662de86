/**
 * The order of the log's rows where it is not the order of the pipeline: where the chain step can stand, and which rows
 * can be inserted below others.
 */
module RunOrder {
  import opened RunSteps

  // ----- the chain step in the log ---------------------------------------------------------------------------------

  /** The chain step is in the log after the passages. */
  ghost predicate ChainLate(rows: map<nat, Row>) {
    exists m, n :: m in rows && n in rows && m < n && rows[m] == Row(Passages, false) && rows[n] == Row(Chain, false)
  }

  /** After any later step means after the passages. */
  lemma {:induction false} LateIsAfterPassages(rows: map<nat, Row>, m: nat, n: nat)
    requires Ordered(rows) && Closed(Kinds(rows)) && m in rows && n in rows && m < n
    requires !rows[m].error && Rank(rows[m].kind) > Rank(Chain) && rows[n] == Row(Chain, false)
    ensures ChainLate(rows)
  {
    RowKind(rows, m);
    if rows[m].kind != Passages {
      assert UpTo(Kinds(rows), Rank(rows[m].kind));
      var p :| p in rows && !rows[p].error && rows[p].kind == Passages;
      assert Compatible(m, rows[m], p, rows[p]);
      assert p < n && rows[p] == Row(Passages, false);
    } else {
      assert rows[m] == Row(Passages, false);
    }
  }

  lemma {:induction false} LateAdds(rows: map<nat, Row>, n: nat, r: Row)
    requires n !in rows
    ensures ChainLate(rows) ==> ChainLate(rows[n := r])
    ensures r != Row(Passages, false) && r != Row(Chain, false) ==> (ChainLate(rows[n := r]) <==> ChainLate(rows))
  {
    var more := rows[n := r];
    if ChainLate(rows) {
      var a, b :| a in rows && b in rows && a < b && rows[a] == Row(Passages, false) && rows[b] == Row(Chain, false);
      assert more[a] == rows[a] && more[b] == rows[b];
    }
    if r != Row(Passages, false) && r != Row(Chain, false) && ChainLate(more) {
      var a, b :| a in more && b in more && a < b && more[a] == Row(Passages, false) && more[b] == Row(Chain, false);
      assert rows[a] == more[a] && rows[b] == more[b];
    }
  }

  lemma {:induction false} LastPassages(rows: map<nat, Row>, n: nat)
    requires n !in rows && forall m :: m in rows ==> m < n
    ensures ChainLate(rows[n := Row(Passages, false)]) <==> ChainLate(rows)
  {
    var more := rows[n := Row(Passages, false)];
    LateAdds(rows, n, Row(Passages, false));
    if ChainLate(more) {
      var a, b :| a in more && b in more && a < b && more[a] == Row(Passages, false) && more[b] == Row(Chain, false);
      assert rows[a] == more[a] && rows[b] == more[b];
    }
  }

  lemma {:induction false} LastChain(rows: map<nat, Row>, n: nat)
    requires n !in rows && (forall m :: m in rows ==> m < n) && Chain !in Kinds(rows)
    ensures ChainLate(rows[n := Row(Chain, false)]) <==> Passages in Kinds(rows)
  {
    var more := rows[n := Row(Chain, false)];
    if Passages in Kinds(rows) {
      var m :| m in rows && !rows[m].error && rows[m].kind == Passages;
      assert more[m] == Row(Passages, false) && more[n] == Row(Chain, false);
    }
    if ChainLate(more) {
      var a, b :| a in more && b in more && a < b && more[a] == Row(Passages, false) && more[b] == Row(Chain, false);
      assert rows[a] == more[a];
      RowKind(rows, a);
    }
  }

  lemma {:induction false} LateKept(rows: map<nat, Row>)
    ensures ChainLate(KeptRows(rows)) <==> ChainLate(rows)
  {
    var kept := KeptRows(rows);
    if ChainLate(rows) {
      var a, b :| a in rows && b in rows && a < b && rows[a] == Row(Passages, false) && rows[b] == Row(Chain, false);
      assert kept[a] == rows[a] && kept[b] == rows[b];
    }
    if ChainLate(kept) {
      var a, b :| a in kept && b in kept && a < b && kept[a] == Row(Passages, false) && kept[b] == Row(Chain, false);
      assert kept[a] == rows[a] && kept[b] == rows[b];
    }
  }

  /** The chain step is carried out by an attempt that took the passages over from the log. */
  predicate ChainsLate(s: Run, t: Step) {
    t.Perform? && s.pc == Before(Rank(Chain)) && Passages in s.finished
  }

  lemma {:induction false} PerformedLate(s: Run)
    requires PcOk(s) && Enabled(s, Perform)
    ensures ChainLate(Apply(s, Perform).rows) <==> ChainLate(s.rows) || ChainsLate(s, Perform)
  {
    NotPerformed(s);
    LateRow(s.rows, s.counter + 1, KindAt(s.pc.next));
    if s.pc.next == Rank(Chain) { PassagesTakenOver(s); }
  }

  lemma {:induction false} PassagesTakenOver(s: Run)
    requires PcOk(s) && s.pc == Before(Rank(Chain))
    ensures Passages in Kinds(s.rows) <==> Passages in s.finished
  {}

  lemma {:induction false} LateRow(rows: map<nat, Row>, n: nat, k: Kind)
    requires n !in rows && (forall m :: m in rows ==> m < n) && k !in Kinds(rows)
    ensures ChainLate(rows[n := Row(k, false)]) <==> ChainLate(rows) || (k == Chain && Passages in Kinds(rows))
  {
    if k == Passages {
      LastPassages(rows, n);
    } else if k == Chain {
      LastChain(rows, n);
      NotLateYet(rows);
    } else {
      LateAdds(rows, n, Row(k, false));
    }
  }

  lemma {:induction false} NotLateYet(rows: map<nat, Row>)
    requires Chain !in Kinds(rows)
    ensures !ChainLate(rows)
  {
    forall n | n in rows ensures rows[n] != Row(Chain, false) {
      if rows[n] == Row(Chain, false) { RowKind(rows, n); }
    }
  }

  /** Exactly this makes the chain step late. */
  lemma {:induction false} LateIff(s: Run, t: Step)
    requires Inv(s) && Enabled(s, t)
    ensures ChainLate(Apply(s, t).rows) <==> ChainLate(s.rows) || ChainsLate(s, t)
  {
    match t
    case Start(last) => LateKept(s.rows);
    case Perform => PerformedLate(s);
    case Insert(k) => InsertedLate(s, t, if k == Verify then s.pc.verify.n else s.pc.consensus.n, Row(k, false));
    case LogNothing => InsertedLate(s, t, s.counter + 1, Row(Write, true));
    case LogFailure => InsertedLate(s, t, s.pc.n, Row(Write, true));
    case LeftInsert => InsertedLate(s, t, s.left.half.n, Row(s.left.kind, false));
    case _ =>
  }

  lemma {:induction false} InsertedLate(s: Run, t: Step, n: nat, r: Row)
    requires PcOk(s) && LeftOk(s) && Enabled(s, t) && Inserts(s, t, n, r) && !t.Perform?
    ensures ChainLate(Apply(s, t).rows) <==> ChainLate(s.rows)
  {
    FreshNumber(s, t, n, r);
    LateAdds(s.rows, n, r);
  }

  predicate EverLate(s: Run, run: seq<Step>)
    requires Valid(s, run)
    decreases |run|
  {
    run != [] && (ChainsLate(s, run[0]) || EverLate(Apply(s, run[0]), run[1..]))
  }

  lemma {:induction false} LateOver(s: Run, run: seq<Step>)
    requires Inv(s) && Valid(s, run)
    ensures ChainLate(Final(s, run).rows) <==> ChainLate(s.rows) || EverLate(s, run)
    decreases |run|
  {
    if run != [] {
      LateIff(s, run[0]);
      StepKeeps(s, run[0]);
      LateOver(Apply(s, run[0]), run[1..]);
    }
  }

  /**
   * Where the chain step stands, over any number of attempts: always after the steps before it, and after a later one
   * if and only if some attempt carried it out with the passages taken over from the log.
   */
  lemma {:induction false} ChainPlace(deep: bool, run: seq<Step>, m: nat, n: nat)
    requires Valid(Fresh(deep), run)
    requires var rows := Final(Fresh(deep), run).rows;
             m in rows && n in rows && !rows[m].error && rows[m].kind != Chain && rows[n] == Row(Chain, false)
    ensures var rows := Final(Fresh(deep), run).rows;
            && (Rank(rows[m].kind) < Rank(Chain) ==> m < n)
            && (Rank(rows[m].kind) > Rank(Chain) && m < n ==> EverLate(Fresh(deep), run))
    ensures ChainLate(Final(Fresh(deep), run).rows) <==> EverLate(Fresh(deep), run)
  {
    var rows := Final(Fresh(deep), run).rows;
    RunKeeps(Fresh(deep), run);
    ChainAfterOver(Fresh(deep), run);
    LateOver(Fresh(deep), run);
    if Rank(rows[m].kind) > Rank(Chain) && m < n { LateIsAfterPassages(rows, m, n); }
  }

  /** The steps before the chain step are in the log, and before it. */
  ghost predicate ChainAfter(rows: map<nat, Row>) {
    && (Chain in Kinds(rows) ==> UpTo(Kinds(rows), Rank(Chain)))
    && forall m, n ::
         m in rows && n in rows && !rows[m].error && Rank(rows[m].kind) < Rank(Chain) && rows[n] == Row(Chain, false)
         ==> m < n
  }

  lemma {:induction false} ChainAfterAdds(rows: map<nat, Row>, n: nat, r: Row)
    requires ChainAfter(rows) && n !in rows
    requires r == Row(Chain, false) ==> UpTo(Kinds(rows), Rank(Chain)) && forall m :: m in rows ==> m < n
    requires !r.error && Rank(r.kind) < Rank(Chain) ==> Chain !in Kinds(rows)
    ensures ChainAfter(rows[n := r])
  {
    var more := rows[n := r];
    KindsAdd(rows, n, r);
    forall a, b | a in more && b in more && !more[a].error && Rank(more[a].kind) < Rank(Chain)
                  && more[b] == Row(Chain, false)
      ensures a < b
    {
      if b != n { RowKind(rows, b); }
    }
  }

  lemma {:induction false} ChainAfterKept(rows: map<nat, Row>)
    requires ChainAfter(rows)
    ensures ChainAfter(KeptRows(rows))
  {
    KindsKept(rows);
  }

  lemma {:induction false} ChainAfterPerform(s: Run)
    requires PcOk(s) && Enabled(s, Perform) && ChainAfter(s.rows)
    ensures ChainAfter(Apply(s, Perform).rows)
  {
    NotPerformed(s);
    ChainAfterAdds(s.rows, s.counter + 1, Row(KindAt(s.pc.next), false));
  }

  lemma {:induction false} ChainAfterStep(s: Run, t: Step)
    requires Inv(s) && Enabled(s, t) && ChainAfter(s.rows)
    ensures ChainAfter(Apply(s, t).rows)
  {
    match t
    case Start(last) => ChainAfterKept(s.rows);
    case Perform => ChainAfterPerform(s);
    case Insert(k) => ChainAfterInsert(s, t, if k == Verify then s.pc.verify.n else s.pc.consensus.n, Row(k, false));
    case LogNothing => ChainAfterInsert(s, t, s.counter + 1, Row(Write, true));
    case LogFailure => ChainAfterInsert(s, t, s.pc.n, Row(Write, true));
    case LeftInsert => ChainAfterInsert(s, t, s.left.half.n, Row(s.left.kind, false));
    case _ =>
  }

  lemma {:induction false} ChainAfterInsert(s: Run, t: Step, n: nat, r: Row)
    requires PcOk(s) && LeftOk(s) && Enabled(s, t) && Inserts(s, t, n, r) && !t.Perform? && ChainAfter(s.rows)
    ensures ChainAfter(Apply(s, t).rows)
  {
    FreshNumber(s, t, n, r);
    BesideOrError(s, t, n, r);
    ChainAfterAdds(s.rows, n, r);
  }

  lemma {:induction false} BesideOrError(s: Run, t: Step, n: nat, r: Row)
    requires PcOk(s) && LeftOk(s) && Enabled(s, t) && Inserts(s, t, n, r) && !t.Perform?
    ensures r.error || r.kind == Verify || r.kind == Consensus
  {}

  lemma {:induction false} ChainAfterOver(s: Run, run: seq<Step>)
    requires Inv(s) && Valid(s, run) && ChainAfter(s.rows)
    ensures ChainAfter(Final(s, run).rows)
    decreases |run|
  {
    if run != [] {
      ChainAfterStep(s, run[0]);
      StepKeeps(s, run[0]);
      ChainAfterOver(Apply(s, run[0]), run[1..]);
    }
  }

  // ----- rows below others -----------------------------------------------------------------------------------------

  ghost predicate RowAbove(rows: map<nat, Row>, n: nat) { exists m :: m in rows && m > n }

  ghost predicate KindAbove(rows: map<nat, Row>, n: nat, k: Kind, error: bool) {
    exists m :: m in rows && m > n && rows[m] == Row(k, error)
  }

  /** Which rows can have overtaken the one a step inserts: those of what runs beside it. */
  ghost predicate Overtaken(s: Run, t: Step, n: nat)
    requires Enabled(s, t)
  {
    match t
    case Insert(k) => KindAbove(s.rows, n, if k == Verify then Consensus else Verify, false)
    case LogFailure => KindAbove(s.rows, n, Verify, false) || KindAbove(s.rows, n, Consensus, false)
    case LeftInsert =>
      || KindAbove(s.rows, n, if s.left.kind == Verify then Consensus else Verify, false)
      || KindAbove(s.rows, n, Write, true)
    case _ => false
  }

  /**
   * A row is inserted below an existing one only by a concurrent step or by the error handler, and exactly if the row
   * of the other concurrent step, or the error row, has overtaken it; the other steps always insert at the end.
   */
  lemma {:induction false} InsertedBelowIff(s: Run, t: Step, n: nat, r: Row)
    requires Inv(s) && Enabled(s, t) && Inserts(s, t, n, r)
    ensures RowAbove(s.rows, n) <==> Overtaken(s, t, n)
  {
    FreshNumber(s, t, n, r);
    if RowAbove(s.rows, n) {
      var m :| m in s.rows && m > n;
      OnlyBeside(s, t, n, r, m);
      assert s.rows[m] == Row(s.rows[m].kind, s.rows[m].error);
    }
  }

  lemma {:induction false} OnlyBeside(s: Run, t: Step, n: nat, r: Row, m: nat)
    requires Inv(s) && Enabled(s, t) && Inserts(s, t, n, r) && m in s.rows && m > n
    ensures t.Insert? || t.LogFailure? || t.LeftInsert?
    ensures s.rows[m].error ==> t.LeftInsert? && s.rows[m].kind == Write
    ensures !s.rows[m].error ==> s.rows[m].kind != r.kind && (s.rows[m].kind == Verify || s.rows[m].kind == Consensus)
  {
    FreshNumber(s, t, n, r);
    if !r.error { InsertIsNew(s, t, n, r); }
  }
}
