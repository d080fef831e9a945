/** The local result store (`useEmailStore`, src/store/email-store.ts): a
    persisted, size-bounded cache of classification results, newest first,
    with statistics recomputed from it after every change. */
module EmailStore {

  import opened Wrappers
  import opened Seqs
  import opened Domain

  /** One classification result as the store keeps it; `confidence` is
      already an integer percentage. */
  datatype EmailResult = EmailResult(
    id: string,
    content: string,
    classification: Classification,
    confidence: int,
    suggestedResponse: string,
    timestamp: string,
    fileName: Option<string>,
    fileType: Option<string>)

  datatype EmailStats = EmailStats(
    totalProcessed: nat,
    productiveCount: nat,
    unproductiveCount: int,
    averageConfidence: int)

  /** What `partialize` hands to persistence. */
  datatype Persisted = Persisted(history: seq<EmailResult>, stats: EmailStats)

  /** `.slice(0, 50)`: the most entries the history keeps. */
  const HistoryLimit: nat := 50

  const ZeroStats: EmailStats := EmailStats(0, 0, 0, 0)

  predicate IsProductive(e: EmailResult) { e.classification == Productive }

  predicate IsUnproductive(e: EmailResult) { e.classification == Unproductive }

  /** The key `removeFromHistory` matches on. */
  function IdOf(e: EmailResult): string { e.id }

  /** The sum of the confidences (`reduce((sum, item) => sum + item.confidence, 0)`). */
  function SumConfidence(h: seq<EmailResult>): (total: int)
    ensures (forall i :: 0 <= i < |h| ==> 0 <= h[i].confidence <= 100) ==> 0 <= total <= 100 * |h|
  {
    if h == [] then 0 else h[0].confidence + SumConfidence(h[1..])
  }

  /** `Math.round(sum / n)`: the integer nearest to sum/n, halves rounded up. */
  function RoundedMean(sum: int, n: nat): (r: int)
    requires n > 0
    ensures n * (2 * r - 1) <= 2 * sum < n * (2 * r + 1)
  {
    var q := (2 * sum + n) / (2 * n);
    assert 2 * n * q <= 2 * sum + n < 2 * n * q + 2 * n by {
      var m := (2 * sum + n) % (2 * n);
      assert 2 * sum + n == 2 * n * q + m;
    }
    q
  }

  /** The statistics of a history, as counts of what it holds. */
  function ComputeStats(h: seq<EmailResult>): (s: EmailStats)
    ensures s.totalProcessed == |h|
    ensures s.productiveCount == |Filter(h, IsProductive)|
    ensures s.unproductiveCount == |Filter(h, IsUnproductive)|
    ensures s.productiveCount + s.unproductiveCount == s.totalProcessed
    ensures h == [] ==> s.averageConfidence == 0
    ensures h != [] ==> s.averageConfidence == RoundedMean(SumConfidence(h), |h|)
  {
    FilterPartition(h, IsProductive, IsUnproductive);
    EmailStats(
      |h|,
      |Filter(h, IsProductive)|,
      |Filter(h, IsUnproductive)|,
      if h == [] then 0 else RoundedMean(SumConfidence(h), |h|))
  }

  /** The history after `addResult(r)`: r in front, the rest shifted back,
      cut to the most recent HistoryLimit entries. */
  function Prepend(h: seq<EmailResult>, r: EmailResult): (h': seq<EmailResult>)
    ensures |h'| == if |h| < HistoryLimit then |h| + 1 else HistoryLimit
    ensures h'[0] == r
    ensures forall i :: 1 <= i < |h'| ==> h'[i] == h[i - 1]
  {
    var added := [r] + h;
    if |added| <= HistoryLimit then added else added[..HistoryLimit]
  }

  /** A snapshot is consistent when it could have come from a valid store. */
  predicate ConsistentSnapshot(p: Persisted)
  {
    p.stats == ComputeStats(p.history) && |p.history| <= HistoryLimit
  }

  class Store {
    var isProcessing: bool
    var currentResult: Option<EmailResult>
    var history: seq<EmailResult>
    var stats: EmailStats
    var currentFile: Option<File>
    var currentText: string

    /** The invariant every public operation keeps. */
    ghost predicate Valid()
      reads this
    {
      stats == ComputeStats(history) && |history| <= HistoryLimit
    }

    /** The initial state. */
    constructor ()
      ensures Valid()
      ensures history == [] && stats == ZeroStats
      ensures !isProcessing && currentResult == None && currentFile == None && currentText == ""
    {
      isProcessing := false;
      currentResult := None;
      history := [];
      stats := ZeroStats;
      currentFile := None;
      currentText := "";
    }

    /** A reload: the initial state with the persisted fields, if any,
        merged over it. */
    constructor Rehydrate(saved: Option<Persisted>)
      ensures saved.Some? ==> history == saved.value.history && stats == saved.value.stats
      ensures saved.None? ==> history == [] && stats == ZeroStats
      ensures !isProcessing && currentResult == None && currentFile == None && currentText == ""
      ensures Valid() <==> saved.None? || ConsistentSnapshot(saved.value)
    {
      isProcessing := false;
      currentResult := None;
      currentFile := None;
      currentText := "";
      match saved
      case None =>
        history := [];
        stats := ZeroStats;
      case Some(p) =>
        history := p.history;
        stats := p.stats;
    }

    /** `partialize`: only history and stats are persisted. */
    function Partialize(): (p: Persisted)
      reads this
      ensures p.history == history && p.stats == stats
      ensures Valid() ==> ConsistentSnapshot(p)
    {
      Persisted(history, stats)
    }

    method SetProcessing(processing: bool)
      modifies this`isProcessing
      ensures isProcessing == processing
    {
      isProcessing := processing;
    }

    /** `updateStats`: recomputes the four fields from `history`. */
    method UpdateStats()
      modifies this`stats
      ensures stats == ComputeStats(history)
    {
      var totalProcessed := |history|;
      var productiveCount := |Filter(history, IsProductive)|;
      FilterPartition(history, IsProductive, IsUnproductive);
      var unproductiveCount := totalProcessed - productiveCount;
      var averageConfidence := if totalProcessed > 0
        then RoundedMean(SumConfidence(history), totalProcessed)
        else 0;
      stats := EmailStats(totalProcessed, productiveCount, unproductiveCount, averageConfidence);
    }

    /** `addResult`: one update of currentResult and history, then
        `updateStats`; the invariant is restored at the end. */
    method AddResult(result: EmailResult)
      requires Valid()
      modifies this`currentResult, this`history, this`stats
      ensures Valid()
      ensures currentResult == Some(result)
      ensures history == Prepend(old(history), result)
    {
      currentResult := Some(result);
      var added := [result] + history;
      history := if |added| <= HistoryLimit then added else added[..HistoryLimit];
      UpdateStats();
    }

    /** `clearHistory`: empties history and zeroes the stats in one update;
        the transient fields are left alone. */
    method ClearHistory()
      requires Valid()
      modifies this`history, this`stats
      ensures Valid()
      ensures history == [] && stats == ZeroStats
    {
      history := [];
      stats := ZeroStats;
    }

    /** `removeFromHistory(id)`: drops every entry with that id, then
        `updateStats`. */
    method RemoveFromHistory(id: string)
      requires Valid()
      modifies this`history, this`stats
      ensures Valid()
      ensures history == WithoutKey(old(history), IdOf, id)
      ensures (forall i :: 0 <= i < |old(history)| ==> old(history)[i].id != id) ==>
        history == old(history) && stats == old(stats)
    {
      history := WithoutKey(history, IdOf, id);
      UpdateStats();
    }

    method SetCurrentFile(file: Option<File>)
      modifies this`currentFile
      ensures currentFile == file
    {
      currentFile := file;
    }

    method SetCurrentText(text: string)
      modifies this`currentText
      ensures currentText == text
    {
      currentText := text;
    }

    /** `clearCurrentInput`: resets the pending file and text only. */
    method ClearCurrentInput()
      modifies this`currentFile, this`currentText
      ensures currentFile == None && currentText == ""
    {
      currentFile := None;
      currentText := "";
    }
  }

  /** Persisting a valid store and reloading it gives back its history and
      stats, a valid store, and the transient fields at their defaults. */
  method Reload(s: Store) returns (t: Store)
    requires s.Valid()
    ensures fresh(t) && t.Valid()
    ensures t.history == s.history && t.stats == s.stats
    ensures !t.isProcessing && t.currentResult == None && t.currentFile == None && t.currentText == ""
  {
    t := new Store.Rehydrate(Some(s.Partialize()));
  }

  /** The history after adding each of `rs` in turn. */
  function AddAll(h: seq<EmailResult>, rs: seq<EmailResult>): seq<EmailResult>
    decreases |rs|
  {
    if rs == [] then h else AddAll(Prepend(h, rs[0]), rs[1..])
  }

  function Reverse(s: seq<EmailResult>): (r: seq<EmailResult>)
    ensures |r| == |s|
    ensures forall i :: 0 <= i < |s| ==> r[i] == s[|s| - 1 - i]
  {
    if s == [] then [] else Reverse(s[1..]) + [s[0]]
  }

  /** The first HistoryLimit entries of s (all of s when it is shorter). */
  function Newest(s: seq<EmailResult>): seq<EmailResult>
  {
    if |s| <= HistoryLimit then s else s[..HistoryLimit]
  }

  lemma NewestAbsorbs(a: seq<EmailResult>, b: seq<EmailResult>)
    ensures Newest(a + Newest(b)) == Newest(a + b)
  {
    if |b| > HistoryLimit {
      if |a| >= HistoryLimit {
        assert (a + Newest(b))[..HistoryLimit] == a[..HistoryLimit] == (a + b)[..HistoryLimit];
      } else {
        assert (a + Newest(b))[..HistoryLimit] == (a + b)[..HistoryLimit];
      }
    }
  }

  /** Adding results one by one leaves the most recent HistoryLimit of
      them, newest first, in front of what was kept before. */
  lemma {:induction false} AddAllKeepsNewest(h: seq<EmailResult>, rs: seq<EmailResult>)
    requires |h| <= HistoryLimit
    ensures AddAll(h, rs) == Newest(Reverse(rs) + h)
    decreases |rs|
  {
    if rs == [] {
      assert Reverse(rs) + h == h;
    } else {
      var h1 := Prepend(h, rs[0]);
      var rest := Reverse(rs[1..]);
      calc {
        AddAll(h, rs);
        AddAll(h1, rs[1..]);
        { AddAllKeepsNewest(h1, rs[1..]); }
        Newest(rest + h1);
        { assert h1 == Newest([rs[0]] + h); }
        Newest(rest + Newest([rs[0]] + h));
        { NewestAbsorbs(rest, [rs[0]] + h); }
        Newest(rest + ([rs[0]] + h));
        { assert rest + ([rs[0]] + h) == (rest + [rs[0]]) + h; }
        Newest((rest + [rs[0]]) + h);
      }
    }
  }

  /** Fifty-one results added to an empty store: fifty remain, the first
      one added is gone, and the others are there newest first. */
  lemma FiftyOneAdds(rs: seq<EmailResult>)
    requires |rs| == HistoryLimit + 1
    requires forall i, j :: 0 <= i < j < |rs| ==> rs[i] != rs[j]
    ensures |AddAll([], rs)| == HistoryLimit
    ensures rs[0] !in AddAll([], rs)
    ensures forall i :: 0 <= i < HistoryLimit ==> AddAll([], rs)[i] == rs[HistoryLimit - i]
  {
    AddAllKeepsNewest([], rs);
    var r := Reverse(rs);
    assert r + [] == r;
    assert AddAll([], rs) == r[..HistoryLimit];
    assert r[HistoryLimit] == rs[0];
    forall i | 0 <= i < HistoryLimit
      ensures AddAll([], rs)[i] != rs[0]
    {
      assert AddAll([], rs)[i] == rs[HistoryLimit - i];
    }
  }

  lemma MulMonotone(n: int, a: int, b: int)
    requires n >= 0 && a <= b
    ensures n * a <= n * b
  {
    assert n * b - n * a == n * (b - a);
  }

  /** A rounded mean lies within any integer bounds of the values averaged. */
  lemma RoundedMeanWithin(sum: int, n: nat, lo: int, hi: int)
    requires n > 0 && n * lo <= sum <= n * hi
    ensures lo <= RoundedMean(sum, n) <= hi
  {
    var r := RoundedMean(sum, n);
    if r < lo {
      MulMonotone(n, 2 * r + 1, 2 * lo - 1);
    }
    if r > hi {
      MulMonotone(n, 2 * hi + 1, 2 * r - 1);
    }
  }

  /** When every confidence is a percentage, so is the average. */
  lemma AverageIsPercentage(h: seq<EmailResult>)
    requires forall i :: 0 <= i < |h| ==> 0 <= h[i].confidence <= 100
    ensures 0 <= ComputeStats(h).averageConfidence <= 100
  {
    if h != [] {
      RoundedMeanWithin(SumConfidence(h), |h|, 0, 100);
    }
  }

  /** Two results, confident at 91% (productive) and 40% (unproductive). */
  lemma TwoResultsScenario(a: EmailResult, b: EmailResult)
    requires a.classification == Productive && a.confidence == 91
    requires b.classification == Unproductive && b.confidence == 40
    ensures ComputeStats(Prepend(Prepend([], a), b)) == EmailStats(2, 1, 1, 66)
  {
    var h := Prepend(Prepend([], a), b);
    assert h == [b, a];
    assert h[1..] == [a];
    assert [a][1..] == [];
    assert SumConfidence([a]) == 91;
    assert SumConfidence(h) == 40 + SumConfidence([a]);
    assert Filter(h, IsProductive) == [a];
    var m := RoundedMean(131, 2);
    assert 2 * (2 * m - 1) <= 262 < 2 * (2 * m + 1);
  }

  /** Clearing leaves exactly the statistics of an empty history. */
  lemma ZeroStatsOfEmpty()
    ensures ComputeStats([]) == ZeroStats
  {
  }
}
