/** The stored leaderboard, its conditional upsert, and the ranking computed from it. */
module Leaderboard {
  import opened Telemetry
  import opened Scoring

  type SubmissionId = nat
  type RunId = nat

  datatype Row = Row(run: RunId, team: string, language: string,
                     peakTps: real, avgP99Ms: real, correctness: real, uptimePct: real,
                     scores: Scores, composite: real, scoredAt: int)

  type Board = map<SubmissionId, Row>

  /** What can happen to the table: a run gets scored, or its submission is deleted. */
  datatype Event = Scored(sub: SubmissionId, row: Row) | Deleted(sub: SubmissionId)

  /** On conflict the row is replaced, team and language apart, unless the new composite is lower. */
  function Upsert(board: Board, sub: SubmissionId, row: Row): Board {
    if sub !in board then board[sub := row]
    else if row.composite >= board[sub].composite then
      board[sub := row.(team := board[sub].team, language := board[sub].language)]
    else board
  }

  function Applied(board: Board, e: Event): Board {
    match e
    case Scored(sub, row) => Upsert(board, sub, row)
    case Deleted(sub) => board - {sub}
  }

  function BoardAfter(history: seq<Event>): Board {
    if history == [] then map[] else Applied(BoardAfter(history[..|history| - 1]), history[|history| - 1])
  }

  // ---------- The table as the best run of the history ----------

  /** The rows scored for a submission since it was last deleted, oldest first. */
  function ScoredFor(history: seq<Event>, sub: SubmissionId): seq<Row> {
    if history == [] then []
    else
      var earlier := ScoredFor(history[..|history| - 1], sub);
      match history[|history| - 1]
      case Scored(s, row) => if s == sub then earlier + [row] else earlier
      case Deleted(s) => if s == sub then [] else earlier
  }

  /** The latest of those attaining the greatest composite. */
  predicate IsBest(rows: seq<Row>, i: nat) {
    && i < |rows|
    && (forall j :: 0 <= j < i ==> rows[j].composite <= rows[i].composite)
    && (forall j :: i < j < |rows| ==> rows[j].composite < rows[i].composite)
  }

  /** A submission has a row exactly when a run of it was scored since its last deletion; the
      row is the single best of those runs, under the names the first of them recorded. */
  lemma {:induction false} RowIsBestRun(history: seq<Event>, sub: SubmissionId) returns (best: nat)
    ensures var board, rows := BoardAfter(history), ScoredFor(history, sub);
            && (sub in board <==> rows != [])
            && (sub in board ==>
                  && IsBest(rows, best) && (forall i :: IsBest(rows, i) ==> i == best)
                  && board[sub] == rows[best].(team := rows[0].team, language := rows[0].language))
  {
    best := 0;
    if history != [] {
      var earlier, e := history[..|history| - 1], history[|history| - 1];
      best := RowIsBestRun(earlier, sub);
      var rows := ScoredFor(earlier, sub);
      if e.sub == sub && e.Scored? {
        if sub !in BoardAfter(earlier) || e.row.composite >= rows[best].composite {
          best := |rows|;
        }
      }
    }
  }

  /** A composite only rises while its submission exists. */
  lemma CompositeNeverDrops(history: seq<Event>, e: Event, sub: SubmissionId)
    requires sub in BoardAfter(history) && e != Deleted(sub)
    ensures sub in BoardAfter(history + [e])
    ensures BoardAfter(history + [e])[sub].composite >= BoardAfter(history)[sub].composite
  {
    assert (history + [e])[..|history|] == history;
  }

  // ---------- The ranking ----------

  /** Strictly earlier in the view's order: higher composite, then earlier scoring. */
  predicate Ahead(a: Row, b: Row) {
    a.composite > b.composite || (a.composite == b.composite && a.scoredAt < b.scoredAt)
  }

  ghost predicate NoRepeats(s: seq<SubmissionId>) {
    forall i, j :: 0 <= i < j < |s| ==> s[i] != s[j]
  }

  /** An answer of the ranked view: every row once, none after a row it is ahead of. Rows that
      tie on both keys may come in either order. */
  ghost predicate IsRanking(board: Board, view: seq<SubmissionId>) {
    && NoRepeats(view)
    && (forall i :: 0 <= i < |view| ==> view[i] in board)
    && (forall s :: s in board ==> s in view)
    && (forall i, j :: 0 <= i < j < |view| ==> !Ahead(board[view[j]], board[view[i]]))
  }

  ghost function AheadOf(board: Board, sub: SubmissionId): set<SubmissionId>
    requires sub in board
  {
    set t | t in board && Ahead(board[t], board[sub])
  }

  ghost function BehindOf(board: Board, sub: SubmissionId): set<SubmissionId>
    requires sub in board
  {
    set t | t in board && Ahead(board[sub], board[t])
  }

  ghost function Elements(s: seq<SubmissionId>): set<SubmissionId> {
    set i | 0 <= i < |s| :: s[i]
  }

  lemma {:induction false} ElementsCounted(s: seq<SubmissionId>)
    ensures |Elements(s)| <= |s|
    ensures NoRepeats(s) ==> |Elements(s)| == |s|
  {
    if s != [] {
      var init, last := s[..|s| - 1], s[|s| - 1];
      ElementsCounted(init);
      assert Elements(s) == Elements(init) + {last};
      if NoRepeats(s) {
        assert last !in Elements(init);
      }
    }
  }

  lemma Included(a: set<SubmissionId>, b: set<SubmissionId>)
    requires a <= b
    ensures |a| <= |b|
    ensures |a| == |b| ==> a == b
  {
    assert b == a + (b - a);
  }

  /** Some row has nothing ahead of it. */
  lemma {:induction false} FrontRow(board: Board, among: set<SubmissionId>) returns (front: SubmissionId)
    requires among != {} && among <= board.Keys
    ensures front in among && forall t :: t in among ==> !Ahead(board[t], board[front])
    decreases among
  {
    var some :| some in among;
    var rest := among - {some};
    front := some;
    if rest != {} {
      var other := FrontRow(board, rest);
      if Ahead(board[other], board[some]) {
        front := other;
      }
      forall t | t in rest ensures !Ahead(board[t], board[front]) {
        assert !Ahead(board[t], board[other]);
      }
    }
    assert among == rest + {some};
  }

  lemma FrontExtends(board: Board, front: SubmissionId, rest: seq<SubmissionId>)
    requires front in board && forall t :: t in board ==> !Ahead(board[t], board[front])
    requires IsRanking(board - {front}, rest)
    ensures IsRanking(board, [front] + rest)
  {
    var view := [front] + rest;
    forall s | s in board ensures s in view {
      if s != front {
        assert s in board - {front};
      }
    }
  }

  /** The view always has an answer. */
  lemma {:induction false} RankingExists(board: Board) returns (view: seq<SubmissionId>)
    ensures IsRanking(board, view)
    decreases |board|
  {
    view := [];
    if board.Keys != {} {
      var front := FrontRow(board, board.Keys);
      var others := board - {front};
      assert board.Keys == others.Keys + {front};
      var rest := RankingExists(others);
      view := [front] + rest;
      FrontExtends(board, front, rest);
    }
  }

  lemma AheadComeFirst(board: Board, view: seq<SubmissionId>, k: nat)
    requires IsRanking(board, view) && k < |view|
    ensures |AheadOf(board, view[k])| <= k
  {
    forall t | t in AheadOf(board, view[k]) ensures t in Elements(view[..k]) {
      var i :| 0 <= i < |view| && view[i] == t;
      assert t == view[..k][i];
    }
    ElementsCounted(view[..k]);
    Included(AheadOf(board, view[k]), Elements(view[..k]));
  }

  lemma BehindComeLast(board: Board, view: seq<SubmissionId>, k: nat)
    requires IsRanking(board, view) && k < |view|
    ensures |BehindOf(board, view[k])| <= |view| - k - 1
  {
    forall t | t in BehindOf(board, view[k]) ensures t in Elements(view[k + 1..]) {
      var i :| 0 <= i < |view| && view[i] == t;
      assert t == view[k + 1..][i - k - 1];
    }
    ElementsCounted(view[k + 1..]);
    Included(BehindOf(board, view[k]), Elements(view[k + 1..]));
  }

  /** Ranks are the numbers 1 to n, one row each: a row's rank lies between one more than the
      number of rows ahead of it and n less the number behind it. */
  lemma RankWithin(board: Board, view: seq<SubmissionId>, k: nat)
    requires IsRanking(board, view) && k < |view|
    ensures |view| == |board|
    ensures |AheadOf(board, view[k])| <= k < |board| - |BehindOf(board, view[k])|
  {
    ElementsCounted(view);
    assert Elements(view) == board.Keys;
    AheadComeFirst(board, view, k);
    BehindComeLast(board, view, k);
  }

  /** No other row agrees with this one on both keys. */
  ghost predicate Untied(board: Board, sub: SubmissionId)
    requires sub in board
  {
    forall t :: t in board && t != sub ==> Ahead(board[t], board[sub]) || Ahead(board[sub], board[t])
  }

  /** Without a tie on both keys the rank is determined. */
  lemma UntiedRank(board: Board, view: seq<SubmissionId>, k: nat)
    requires IsRanking(board, view) && k < |view| && Untied(board, view[k])
    ensures k == |AheadOf(board, view[k])|
  {
    var sub := view[k];
    RankWithin(board, view, k);
    var ahead, behind := AheadOf(board, sub), BehindOf(board, sub);
    assert board.Keys == ahead + behind + {sub};
    assert |ahead + behind| == |ahead| + |behind|;
  }

  // ---------- Scoring a submission again ----------

  /** Some row was level with the old one on composite, no earlier than it, and is earlier than
      the new one. */
  ghost predicate LosesTie(board: Board, sub: SubmissionId, row: Row)
    requires sub in board
  {
    && row.composite == board[sub].composite
    && exists t :: t in board && t != sub && board[t].composite == row.composite
                   && board[sub].scoredAt <= board[t].scoredAt < row.scoredAt
  }

  lemma OvertakenIff(board: Board, sub: SubmissionId, row: Row)
    requires sub in board
    ensures var after := Upsert(board, sub, row);
            if LosesTie(board, sub, row) then AheadOf(board, sub) < AheadOf(after, sub)
            else AheadOf(after, sub) <= AheadOf(board, sub)
  {
    var after := Upsert(board, sub, row);
    if LosesTie(board, sub, row) {
      var t :| t in board && t != sub && board[t].composite == row.composite
               && board[sub].scoredAt <= board[t].scoredAt < row.scoredAt;
      assert t in AheadOf(after, sub) && t !in AheadOf(board, sub);
    } else {
      forall t | t in AheadOf(after, sub) ensures t in AheadOf(board, sub) {
        assert t != sub && after[t] == board[t];
      }
    }
  }

  /** Scoring a submission again costs it ranks exactly when the composite came out equal and the
      renewed time loses a tie. */
  lemma RescoringCostsRankIff(board: Board, sub: SubmissionId, row: Row, before: seq<SubmissionId>, i: nat,
                              later: seq<SubmissionId>, j: nat)
    requires sub in board && Untied(board, sub)
    requires IsRanking(board, before) && i < |before| && before[i] == sub
    requires var after := Upsert(board, sub, row);
             Untied(after, sub) && IsRanking(after, later) && j < |later| && later[j] == sub
    ensures j > i <==> LosesTie(board, sub, row)
  {
    var after := Upsert(board, sub, row);
    UntiedRank(board, before, i);
    UntiedRank(after, later, j);
    OvertakenIff(board, sub, row);
    if LosesTie(board, sub, row) {
      Included(AheadOf(board, sub), AheadOf(after, sub));
    } else {
      Included(AheadOf(after, sub), AheadOf(board, sub));
    }
  }

  // ---------- Rows that tie on both keys ----------

  /** Rows none of which is behind any other row may come first, and then this one. */
  lemma AnswerAfter(board: Board, front: set<SubmissionId>, sub: SubmissionId) returns (view: seq<SubmissionId>)
    requires sub in board && sub !in front && front <= board.Keys
    requires forall s, t :: s in front && t in board && t !in front ==> !Ahead(board[t], board[s])
    requires forall t :: t in board && t !in front ==> !Ahead(board[t], board[sub])
    ensures IsRanking(board, view) && |front| < |view| && view[|front|] == sub
  {
    var others := board - front;
    var first := RankingExists(board - others.Keys);
    var rest := RankingExists(others - {sub});
    FrontExtends(others, sub, rest);
    RankingsJoined(board, front, first, [sub] + rest);
    view := first + ([sub] + rest);
    ElementsCounted(first);
    assert Elements(first) == front;
  }

  lemma RankingsJoined(board: Board, front: set<SubmissionId>, first: seq<SubmissionId>, rest: seq<SubmissionId>)
    requires front <= board.Keys
    requires forall s, t :: s in front && t in board && t !in front ==> !Ahead(board[t], board[s])
    requires IsRanking(board - (board - front).Keys, first) && IsRanking(board - front, rest)
    ensures IsRanking(board, first + rest)
  {
    var view, n := first + rest, |first|;
    forall s | s in board ensures s in view {
      assert s in first || s in rest;
    }
    forall i, j | 0 <= i < j < |view|
      ensures view[i] != view[j] && !Ahead(board[view[j]], board[view[i]])
    {
      assert view[i] == if i < n then first[i] else rest[i - n];
      assert view[j] == if j < n then first[j] else rest[j - n];
    }
  }

  /** The best rank a row can have, and the worst: both occur. */
  lemma RankRange(board: Board, sub: SubmissionId)
      returns (first: seq<SubmissionId>, last: seq<SubmissionId>, k: nat)
    requires sub in board
    ensures IsRanking(board, first) && |AheadOf(board, sub)| < |first| && first[|AheadOf(board, sub)|] == sub
    ensures k == |NotBehind(board, sub)| && IsRanking(board, last) && k < |last| && last[k] == sub
  {
    first := AnswerAfter(board, AheadOf(board, sub), sub);
    k := |NotBehind(board, sub)|;
    last := AnswerAfter(board, NotBehind(board, sub), sub);
  }

  /** The other rows that this one is not ahead of. */
  ghost function NotBehind(board: Board, sub: SubmissionId): set<SubmissionId>
    requires sub in board
  {
    set t | t in board && t != sub && !Ahead(board[sub], board[t])
  }

  lemma RankAtMost(board: Board, view: seq<SubmissionId>, k: nat)
    requires IsRanking(board, view) && k < |view|
    ensures |AheadOf(board, view[k])| <= k <= |NotBehind(board, view[k])|
  {
    var sub := view[k];
    RankWithin(board, view, k);
    assert board.Keys == NotBehind(board, sub) + BehindOf(board, sub) + {sub};
    assert |NotBehind(board, sub) + BehindOf(board, sub)| == |NotBehind(board, sub)| + |BehindOf(board, sub)|;
  }

  /** Answers of the view before and after the submission is scored again, with its positions. */
  ghost predicate Answers(board: Board, sub: SubmissionId, row: Row, before: seq<SubmissionId>, i: nat,
                          later: seq<SubmissionId>, j: nat)
    requires sub in board
  {
    && IsRanking(board, before) && i < |before| && before[i] == sub
    && IsRanking(Upsert(board, sub, row), later) && j < |later| && later[j] == sub
  }

  ghost predicate MayCostRank(board: Board, sub: SubmissionId, row: Row)
    requires sub in board
  {
    exists before, i, later, j :: Answers(board, sub, row, before, i, later, j) && j > i
  }

  ghost predicate MustCostRank(board: Board, sub: SubmissionId, row: Row)
    requires sub in board
  {
    forall before, i, later, j :: Answers(board, sub, row, before, i, later, j) ==> j > i
  }

  /** Another row of the composite that the submission had and keeps, scored between the times,
      or at one of them. */
  ghost predicate HasRival(board: Board, sub: SubmissionId, row: Row)
    requires sub in board
  {
    var kept := Upsert(board, sub, row)[sub];
    && kept.composite == board[sub].composite
    && exists t :: t in board && t != sub && board[t].composite == kept.composite
                   && board[sub].scoredAt <= board[t].scoredAt <= kept.scoredAt
  }

  /** The same, strictly between the times. */
  ghost predicate HasOvertaker(board: Board, sub: SubmissionId, row: Row)
    requires sub in board
  {
    var kept := Upsert(board, sub, row)[sub];
    && kept.composite == board[sub].composite
    && exists t :: t in board && t != sub && board[t].composite == kept.composite
                   && board[sub].scoredAt < board[t].scoredAt < kept.scoredAt
  }

  lemma RivalIff(board: Board, sub: SubmissionId, row: Row)
    requires sub in board
    ensures HasRival(board, sub, row) <==> |AheadOf(board, sub)| < |NotBehind(Upsert(board, sub, row), sub)|
  {
    var after := Upsert(board, sub, row);
    var ahead, ceiling := AheadOf(board, sub), NotBehind(after, sub);
    assert forall t :: t in board && t != sub ==> t in after && after[t] == board[t];
    if HasRival(board, sub, row) {
      assert ahead <= ceiling;
      var t :| t in board && t != sub && board[t].composite == after[sub].composite
               && board[sub].scoredAt <= board[t].scoredAt <= after[sub].scoredAt;
      assert t in ceiling && t !in ahead;
      Included(ahead, ceiling);
    } else {
      assert ceiling <= ahead;
      Included(ceiling, ahead);
    }
  }

  lemma OvertakerIff(board: Board, sub: SubmissionId, row: Row)
    requires sub in board
    ensures HasOvertaker(board, sub, row) <==> |NotBehind(board, sub)| < |AheadOf(Upsert(board, sub, row), sub)|
  {
    var after := Upsert(board, sub, row);
    var ceiling, ahead := NotBehind(board, sub), AheadOf(after, sub);
    assert forall t :: t in board && t != sub ==> t in after && after[t] == board[t];
    if HasOvertaker(board, sub, row) {
      assert ceiling <= ahead;
      var t :| t in board && t != sub && board[t].composite == after[sub].composite
               && board[sub].scoredAt < board[t].scoredAt < after[sub].scoredAt;
      assert t in ahead && t !in ceiling;
      Included(ceiling, ahead);
    } else {
      assert ahead <= ceiling;
      Included(ahead, ceiling);
    }
  }

  /** Whatever ties there are: some answers of the view show a worse rank after scoring again if
      and only if the composite stays and a row of that composite was scored between the times or
      at one of them; and all answers do if and only if one was scored strictly between. So a
      higher composite never costs a rank. */
  lemma RescoringMayCostRankIff(board: Board, sub: SubmissionId, row: Row)
    requires sub in board
    ensures MayCostRank(board, sub, row) <==> HasRival(board, sub, row)
    ensures MustCostRank(board, sub, row) <==> HasOvertaker(board, sub, row)
    ensures row.composite > board[sub].composite ==> !MayCostRank(board, sub, row)
  {
    hide IsRanking, HasRival, HasOvertaker, AheadOf, NotBehind, Upsert;
    var after := Upserted(board, sub, row);
    RivalIff(board, sub, row);
    OvertakerIff(board, sub, row);
    var best, worst, k := RankRange(board, sub);
    var bestAfter, worstAfter, m := RankRange(after, sub);
    assert Answers(board, sub, row, best, |AheadOf(board, sub)|, worstAfter, m);
    assert Answers(board, sub, row, worst, k, bestAfter, |AheadOf(after, sub)|);
    forall before, i, later, j | Answers(board, sub, row, before, i, later, j)
      ensures |AheadOf(board, sub)| <= i <= k && |AheadOf(after, sub)| <= j <= m
    {
      RankAtMost(board, before, i);
      RankAtMost(after, later, j);
    }
    HigherHasNoRival(board, sub, row);
  }

  lemma Upserted(board: Board, sub: SubmissionId, row: Row) returns (after: Board)
    requires sub in board
    ensures after == Upsert(board, sub, row) && sub in after
  {
    after := Upsert(board, sub, row);
  }

  lemma HigherHasNoRival(board: Board, sub: SubmissionId, row: Row)
    requires sub in board
    ensures row.composite > board[sub].composite ==> !HasRival(board, sub, row)
  {
  }

  /** The exception happens: an equal second result drops a leader behind a later rival. */
  lemma EqualRescoreDropsRank(first: Row, rival: Row, again: Row)
    requires first.composite == rival.composite == again.composite
    requires first.scoredAt < rival.scoredAt < again.scoredAt
    ensures var board := BoardAfter([Scored(1, first), Scored(2, rival)]);
            board == map[1 := first, 2 := rival] && LosesTie(board, 1, again)
            && IsRanking(board, [1, 2]) && IsRanking(Upsert(board, 1, again), [2, 1])
  {
    var h := [Scored(1, first), Scored(2, rival)];
    assert h[..1] == [Scored(1, first)] && h[..1][..0] == [];
    var board := BoardAfter(h);
    assert BoardAfter(h[..1]) == Upsert(BoardAfter([]), 1, first) == map[1 := first];
    assert board == Upsert(BoardAfter(h[..1]), 2, rival) == map[1 := first, 2 := rival];
    assert 2 in board && board[2].composite == again.composite;
    assert Present([1, 2], 1, 0) && Present([1, 2], 2, 1);
    assert Present([2, 1], 2, 0) && Present([2, 1], 1, 1);
  }

  ghost predicate Present(view: seq<SubmissionId>, sub: SubmissionId, i: nat) {
    i < |view| && view[i] == sub && sub in view
  }

  // ---------- Scoring a run ----------

  /** The row of a run's aggregate. */
  function RowOf(log: real -> real, w: Weights, run: RunId, team: string, language: string, a: Aggregate, now: int): Row
  {
    var s := Normalized(log, a);
    Row(run, team, language, a.peakTps, a.avgP99Ms, a.correctness, a.uptimePct, s, Composite(w, s), now)
  }

  /** The scores and the composite of a row follow from the metrics it shows. */
  ghost predicate Consistent(log: real -> real, w: Weights, row: Row) {
    && row.scores.latency == LatencyScore(log, row.avgP99Ms)
    && row.scores.throughput == ThroughputScore(log, row.peakTps)
    && row.scores.correctness == Clamp(row.correctness * 100.0, 0.0, 100.0)
    && row.scores.stability == Clamp(row.uptimePct, 0.0, 100.0)
    && row.composite == Composite(w, row.scores)
  }

  /** Whatever is scored again or deleted, no row ever mixes the results of different runs. */
  lemma {:induction false} RowsConsistent(log: real -> real, w: Weights, history: seq<Event>, sub: SubmissionId)
    requires forall i :: 0 <= i < |history| && history[i].Scored? ==>
               exists run, team, language, a, now :: history[i].row == RowOf(log, w, run, team, language, a, now)
    requires sub in BoardAfter(history)
    ensures Consistent(log, w, BoardAfter(history)[sub])
  {
    var earlier, e := history[..|history| - 1], history[|history| - 1];
    if sub in BoardAfter(earlier) && BoardAfter(history)[sub] == BoardAfter(earlier)[sub] {
      RowsConsistent(log, w, earlier, sub);
    }
  }

  /** A run at least as good on every raw metric is ranked lower only on a tie of composites
      that it reached no earlier. */
  lemma DominanceRanks(log: real -> real, w: Weights, a: Aggregate, b: Aggregate, board: Board,
                       view: seq<SubmissionId>, i: nat, j: nat)
    requires IsLog10(log) && ProperWeights(w) && Dominates(a, b)
    requires IsRanking(board, view) && i < |view| && j < i
    requires board[view[i]].composite == Composite(w, Normalized(log, a))
    requires board[view[j]].composite == Composite(w, Normalized(log, b))
    ensures board[view[j]].composite == board[view[i]].composite && board[view[j]].scoredAt <= board[view[i]].scoredAt
  {
    DominanceScores(log, w, a, b);
    assert !Ahead(board[view[i]], board[view[j]]);
  }

  // ---------- The tables of the scoring service ----------

  datatype Entry = Entry(team: string, language: string)

  /** The step at which the database gave an error, if any did. */
  datatype Fault = NoFault | AggregateFails | StoreFails | LookupFails | UpsertFails

  datatype Tables = Tables(submissions: map<SubmissionId, Entry>, runs: map<RunId, SubmissionId>,
                           snapshots: map<RunId, seq<Snapshot>>, aggregates: map<RunId, Aggregate>,
                           leaderboard: Board)
  {
    function Persisted(run: RunId): seq<Snapshot> {
      if run in snapshots then snapshots[run] else []
    }
  }

  const NoTables := Tables(map[], map[], map[], map[], map[])

  /** What is done to them: by the API, by the ingester of a run, and by the scoring service. */
  datatype Call =
    | Submit(sub: SubmissionId, entry: Entry) | AddRun(run: RunId, sub: SubmissionId)
    | Persist(run: RunId, snapshot: Snapshot)
    | Compute(run: RunId, now: int, fault: Fault)
    | Remove(sub: SubmissionId)

  /** Aggregates, stores, scores and upserts; an error leaves what the earlier steps stored. */
  function Computed(log: real -> real, w: Weights, interval: real, t: Tables, run: RunId, now: int, fault: Fault): Tables
    requires interval > 0.0
  {
    if run !in t.runs || fault == AggregateFails || fault == StoreFails then t
    else
      var a := AggregateOf(t.Persisted(run), interval);
      var stored := t.(aggregates := t.aggregates[run := a]);
      if fault != NoFault || t.runs[run] !in t.submissions then stored
      else
        var e := t.submissions[t.runs[run]];
        stored.(leaderboard := Upsert(t.leaderboard, t.runs[run], RowOf(log, w, run, e.team, e.language, a, now)))
  }

  /** Foreign keys cascade. */
  function Removed(t: Tables, sub: SubmissionId): Tables {
    var runs := map r | r in t.runs && t.runs[r] != sub :: t.runs[r];
    Tables(t.submissions - {sub}, runs, map r | r in t.snapshots && r in runs :: t.snapshots[r],
           map r | r in t.aggregates && r in runs :: t.aggregates[r], t.leaderboard - {sub})
  }

  function Called(log: real -> real, w: Weights, interval: real, t: Tables, c: Call): Tables
    requires interval > 0.0
  {
    match c
    case Submit(sub, entry) => if sub in t.submissions then t else t.(submissions := t.submissions[sub := entry])
    case AddRun(run, sub) => if run in t.runs || sub !in t.submissions then t else t.(runs := t.runs[run := sub])
    case Persist(run, s) =>
      if run in t.runs then t.(snapshots := t.snapshots[run := t.Persisted(run) + [s]]) else t
    case Compute(run, now, fault) => Computed(log, w, interval, t, run, now, fault)
    case Remove(sub) => Removed(t, sub)
  }

  function TablesAfter(log: real -> real, w: Weights, interval: real, calls: seq<Call>): Tables
    requires interval > 0.0
  {
    if calls == [] then NoTables
    else Called(log, w, interval, TablesAfter(log, w, interval, calls[..|calls| - 1]), calls[|calls| - 1])
  }

  /** The foreign keys, and under whose name a row stands. */
  ghost predicate Linked(t: Tables) {
    && (forall r :: r in t.runs ==> t.runs[r] in t.submissions)
    && t.aggregates.Keys <= t.runs.Keys && t.snapshots.Keys <= t.runs.Keys
    && (forall s :: s in t.leaderboard ==>
          s in t.submissions && t.leaderboard[s].run in t.runs && t.runs[t.leaderboard[s].run] == s)
    && (forall s :: s in t.leaderboard ==> Named(t.leaderboard[s], t.submissions[s]))
  }

  predicate Named(row: Row, e: Entry) {
    row.team == e.team && row.language == e.language
  }

  lemma CallKeepsLinked(log: real -> real, w: Weights, interval: real, t: Tables, c: Call)
    requires interval > 0.0 && Linked(t)
    ensures Linked(Called(log, w, interval, t, c))
  {
    hide AggregateOf, Normalized, Composite;
  }

  /** Over any calls every row stands under the team and language of its submission, for a run
      of that submission. */
  lemma {:induction false} AlwaysLinked(log: real -> real, w: Weights, interval: real, calls: seq<Call>)
    requires interval > 0.0
    ensures Linked(TablesAfter(log, w, interval, calls))
  {
    hide Called, Linked;
    if calls == [] {
      NoTablesLinked();
    } else {
      AlwaysLinked(log, w, interval, calls[..|calls| - 1]);
      CallKeepsLinked(log, w, interval, TablesAfter(log, w, interval, calls[..|calls| - 1]), calls[|calls| - 1]);
    }
  }

  lemma NoTablesLinked()
    ensures Linked(NoTables)
  {
  }

  /** The row is what the k-th call, in the tables as they then were, made of its run: scored at
      that call's time, from the snapshots persisted by then. */
  ghost predicate ScoredBy(log: real -> real, w: Weights, interval: real, calls: seq<Call>, k: nat, row: Row)
    requires interval > 0.0
  {
    && k < |calls| && calls[k] == Compute(row.run, row.scoredAt, NoFault)
    && var a := AggregateOf(TablesAfter(log, w, interval, calls[..k]).Persisted(row.run), interval);
    && row.peakTps == a.peakTps && row.avgP99Ms == a.avgP99Ms
    && row.correctness == a.correctness && row.uptimePct == a.uptimePct
    && row.scores == Normalized(log, a) && row.composite == Composite(w, row.scores)
  }

  lemma ScoredEarlier(log: real -> real, w: Weights, interval: real, calls: seq<Call>, k: nat, row: Row)
    requires interval > 0.0 && calls != [] && ScoredBy(log, w, interval, calls[..|calls| - 1], k, row)
    ensures ScoredBy(log, w, interval, calls, k, row)
  {
    hide AggregateOf, TablesAfter, Composite, Normalized;
    assert calls[..|calls| - 1][..k] == calls[..k];
  }

  /** What one call makes of a submission's row: it stays, or is that of the run just scored. */
  lemma RowMade(log: real -> real, w: Weights, interval: real, t: Tables, c: Call, sub: SubmissionId)
    requires interval > 0.0 && sub in Called(log, w, interval, t, c).leaderboard
    ensures var row := Called(log, w, interval, t, c).leaderboard[sub];
            || (sub in t.leaderboard && row == t.leaderboard[sub])
            || (c == Compute(row.run, row.scoredAt, NoFault)
                && var a := AggregateOf(t.Persisted(row.run), interval);
                && row.peakTps == a.peakTps && row.avgP99Ms == a.avgP99Ms
                && row.correctness == a.correctness && row.uptimePct == a.uptimePct
                && row.scores == Normalized(log, a) && row.composite == Composite(w, row.scores))
  {
    hide AggregateOf, Composite, Normalized;
  }

  /** Over any calls every row is the result of one call for its run: time, metrics, scores and
      composite all are that call's. */
  lemma {:induction false} RowsTraced(log: real -> real, w: Weights, interval: real, calls: seq<Call>,
                                      sub: SubmissionId) returns (k: nat)
    requires interval > 0.0 && sub in TablesAfter(log, w, interval, calls).leaderboard
    ensures ScoredBy(log, w, interval, calls, k, TablesAfter(log, w, interval, calls).leaderboard[sub])
  {
    hide Called, AggregateOf, Composite, Normalized;
    var past, c := calls[..|calls| - 1], calls[|calls| - 1];
    var t := TablesAfter(log, w, interval, past);
    RowMade(log, w, interval, t, c, sub);
    var row := TablesAfter(log, w, interval, calls).leaderboard[sub];
    if sub in t.leaderboard && row == t.leaderboard[sub] {
      k := RowsTraced(log, w, interval, past, sub);
      ScoredEarlier(log, w, interval, calls, k, row);
    } else {
      k := |past|;
    }
  }

  /** Of two rows with equal composites the one whose run was scored earlier ranks first. */
  lemma EarlierResultFirst(log: real -> real, w: Weights, interval: real, calls: seq<Call>, view: seq<SubmissionId>,
                           i: nat, j: nat, k: nat, l: nat)
    requires interval > 0.0
    requires var board := TablesAfter(log, w, interval, calls).leaderboard;
             && IsRanking(board, view) && i < |view| && j < |view|
             && board[view[i]].composite == board[view[j]].composite
             && ScoredBy(log, w, interval, calls, k, board[view[i]])
             && ScoredBy(log, w, interval, calls, l, board[view[j]])
    requires calls[k].now < calls[l].now
    ensures i < j
  {
    var board := TablesAfter(log, w, interval, calls).leaderboard;
    RankedBefore(board, view, i, j);
  }

  lemma RankedBefore(board: Board, view: seq<SubmissionId>, i: nat, j: nat)
    requires IsRanking(board, view) && i < |view| && j < |view|
    ensures Ahead(board[view[i]], board[view[j]]) ==> i < j
  {
    if j < i {
      assert !Ahead(board[view[i]], board[view[j]]);
    }
  }

  /** The table's history as one of scorings and deletions. */
  function EventsOf(log: real -> real, w: Weights, interval: real, calls: seq<Call>): seq<Event>
    requires interval > 0.0
  {
    if calls == [] then []
    else
      var past, c := calls[..|calls| - 1], calls[|calls| - 1];
      var t := TablesAfter(log, w, interval, past);
      EventsOf(log, w, interval, past)
      + match c
        case Compute(run, now, fault) =>
          if run in t.runs && fault == NoFault && t.runs[run] in t.submissions then
            var e := t.submissions[t.runs[run]];
            [Scored(t.runs[run], RowOf(log, w, run, e.team, e.language, AggregateOf(t.Persisted(run), interval), now))]
          else []
        case Remove(sub) => [Deleted(sub)]
        case _ => []
  }

  lemma BoardExtended(history: seq<Event>, e: Event)
    ensures BoardAfter(history + [e]) == Applied(BoardAfter(history), e)
  {
    assert (history + [e])[..|history|] == history;
  }

  /** So all that holds of such histories holds of the table: its row is the best run's. */
  lemma {:induction false} LeaderboardIsBoard(log: real -> real, w: Weights, interval: real, calls: seq<Call>)
    requires interval > 0.0
    ensures TablesAfter(log, w, interval, calls).leaderboard == BoardAfter(EventsOf(log, w, interval, calls))
  {
    hide AggregateOf, RowOf, Upsert, Applied;
    if calls != [] {
      var past, c := calls[..|calls| - 1], calls[|calls| - 1];
      LeaderboardIsBoard(log, w, interval, past);
      var before, now := EventsOf(log, w, interval, past), EventsOf(log, w, interval, calls);
      if |now| == |before| {
        assert now == before;
      } else {
        BoardExtended(before, now[|before|]);
        OneEvent(TablesAfter(log, w, interval, past).leaderboard, now[|before|]);
      }
    }
  }

  lemma OneEvent(board: Board, e: Event)
    ensures Applied(board, e) == if e.Scored? then Upsert(board, e.sub, e.row) else board - {e.sub}
  {
  }

  class ScoringService {
    const weights: Weights
    const interval: real
    var submissions: map<SubmissionId, Entry>
    var runs: map<RunId, SubmissionId>
    var snapshots: map<RunId, seq<Snapshot>>
    var aggregates: map<RunId, Aggregate>
    var leaderboard: Board

    ghost function View(): Tables
      reads this
    {
      Tables(submissions, runs, snapshots, aggregates, leaderboard)
    }

    ghost predicate Valid()
      reads this
    {
      interval > 0.0 && Linked(View())
    }

    constructor (weights: Weights, interval: real)
      requires interval > 0.0
      ensures Valid() && View() == NoTables && this.weights == weights && this.interval == interval
    {
      this.weights, this.interval := weights, interval;
      submissions, runs, snapshots, aggregates, leaderboard := map[], map[], map[], map[], map[];
    }

    function Persisted(run: RunId): seq<Snapshot>
      reads this
    {
      if run in snapshots then snapshots[run] else []
    }

    /** Looks up under what names the run's submission stands, and inserts its row or, unless the
        composite is lower than the standing one, replaces it. */
    method UpsertLeaderboard(log: real -> real, run: RunId, a: Aggregate, now: int, fault: Fault) returns (ok: bool)
      requires Valid()
      modifies this`leaderboard
      ensures Valid() && (ok <==> run in runs && fault != LookupFails && fault != UpsertFails)
      ensures !ok ==> leaderboard == old(leaderboard)
      ensures ok ==>
                var sub, composite := runs[run], Composite(weights, Normalized(log, a));
                && sub in leaderboard && leaderboard - {sub} == old(leaderboard) - {sub}
                && if sub in old(leaderboard) && composite < old(leaderboard)[sub].composite
                   then leaderboard[sub] == old(leaderboard)[sub]
                   else leaderboard[sub]
                        == Row(run, submissions[sub].team, submissions[sub].language, a.peakTps, a.avgP99Ms,
                               a.correctness, a.uptimePct, Normalized(log, a), composite, now)
      ensures ok ==>
                var e := submissions[runs[run]];
                leaderboard == Upsert(old(leaderboard), runs[run],
                                      RowOf(log, weights, run, e.team, e.language, a, now))
    {
      hide Normalized, Composite;
      if fault == LookupFails || run !in runs {
        return false;
      }
      var sub := runs[run];
      var entry := submissions[sub];
      if fault == UpsertFails {
        return false;
      }
      var row := RowOf(log, weights, run, entry.team, entry.language, a, now);
      if sub !in leaderboard {
        leaderboard := leaderboard[sub := row];
      } else {
        var kept := leaderboard[sub];
        if row.composite >= kept.composite {
          leaderboard := leaderboard[sub := row.(team := kept.team, language := kept.language)];
        }
      }
      return true;
    }

    /** Aggregates, stores, scores and upserts; an error leaves what the earlier steps stored. */
    method ComputeAndStore(log: real -> real, run: RunId, now: int, fault: Fault) returns (ok: bool)
      requires Valid()
      modifies this`aggregates, this`leaderboard
      ensures Valid() && View() == Called(log, weights, interval, old(View()), Compute(run, now, fault))
      ensures ok <==> run in runs && fault == NoFault
      ensures !ok ==> leaderboard == old(leaderboard)
      ensures aggregates == if run in runs && fault != AggregateFails && fault != StoreFails
                            then old(aggregates)[run := AggregateOf(Persisted(run), interval)] else old(aggregates)
      ensures ok ==>
                var sub, a := runs[run], aggregates[run];
                var composite := Composite(weights, Normalized(log, a));
                && sub in leaderboard && leaderboard - {sub} == old(leaderboard) - {sub}
                && if sub in old(leaderboard) && composite < old(leaderboard)[sub].composite
                   then leaderboard[sub] == old(leaderboard)[sub]
                   else leaderboard[sub]
                        == Row(run, submissions[sub].team, submissions[sub].language, a.peakTps, a.avgP99Ms,
                               a.correctness, a.uptimePct, Normalized(log, a), composite, now)
    {
      hide AggregateOf, Normalized, Composite;
      if fault == AggregateFails {
        return false;
      }
      var agg := AggregateOf(Persisted(run), interval);
      if fault == StoreFails || run !in runs {
        return false;
      }
      aggregates := aggregates[run := agg];
      ok := UpsertLeaderboard(log, run, agg, now, fault);
    }

    /** Deleting a submission takes its runs, snapshots, aggregates and row with it, and nothing
        of any other. */
    method DeleteSubmission(sub: SubmissionId)
      requires Valid()
      modifies this
      ensures Valid() && View() == Removed(old(View()), sub)
      ensures leaderboard == old(leaderboard) - {sub} && submissions == old(submissions) - {sub}
      ensures forall r :: r in runs <==> r in old(runs) && old(runs)[r] != sub
      ensures forall r :: r in runs ==>
                && runs[r] == old(runs)[r] && Persisted(r) == old(Persisted(r))
                && (r in aggregates <==> r in old(aggregates))
                && (r in aggregates ==> aggregates[r] == old(aggregates)[r])
      ensures forall r :: r !in runs ==> Persisted(r) == [] && r !in aggregates
    {
      submissions := submissions - {sub};
      runs := map r | r in runs && runs[r] != sub :: runs[r];
      snapshots := map r | r in snapshots && r in runs :: snapshots[r];
      aggregates := map r | r in aggregates && r in runs :: aggregates[r];
      leaderboard := leaderboard - {sub};
    }
  }
}
