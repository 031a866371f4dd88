/** The collaborative-filtering recommender: training data (real
    interactions or a synthetic cold start), the retrying fetch, the SVD
    component count, and ranking by a correlation row with self-exclusion
    and a random fallback. The numerics (SVD, Pearson correlation, argsort)
    are parameters: the model keeps the shapes and the control flow. */
module Recommender {
  import opened Common

  // ---------------------------------------------------------------------
  // Training data

  /** One matrix row before pivoting: a user liked a sound. */
  datatype Row = Row(userId: string, soundId: string, rating: int)

  /** An interaction row as the database returns it. */
  datatype Interaction = Interaction(userId: string, soundId: string)

  const RealDataThreshold: nat := 50
  const SeedsPerSound: nat := 3
  const NoiseRows: nat := 200
  const MockUsers: nat := 50

  function MockUser(k: nat): string
  {
    "mock_user_" + NatToString(k)
  }

  /** The synthetic data: three rows per sound, in sound order, then 200
      rows for randomly chosen sounds. `users` are the `randint(1, 50)`
      draws in order, `noise` the `choice` draws as positions. */
  function ColdStart(soundIds: seq<string>, users: seq<nat>, noise: seq<nat>): (rows: seq<Row>)
    requires |users| == SeedsPerSound * |soundIds| + NoiseRows && |noise| == NoiseRows
    requires forall k :: 0 <= k < |noise| ==> noise[k] < |soundIds|
    ensures |rows| == SeedsPerSound * |soundIds| + NoiseRows
    ensures forall k :: 0 <= k < |rows| ==> rows[k].rating == 1 && rows[k].soundId in soundIds
    ensures forall k :: 0 <= k < |rows| ==> rows[k].userId == MockUser(users[k])
  {
    var n := |soundIds|;
    var seeded := seq(SeedsPerSound * n, k requires 0 <= k < SeedsPerSound * n => Row(MockUser(users[k]), soundIds[k / SeedsPerSound], 1));
    var noisy := seq(NoiseRows, k requires 0 <= k < NoiseRows => Row(MockUser(users[SeedsPerSound * n + k]), soundIds[noise[k]], 1));
    seeded + noisy
  }

  function SoundsOf(rows: seq<Row>): (s: seq<string>)
    ensures |s| == |rows| && forall k :: 0 <= k < |rows| ==> s[k] == rows[k].soundId
  {
    seq(|rows|, k requires 0 <= k < |rows| => rows[k].soundId)
  }

  /** Whatever the draws, every sound occurs at least three times in the
      synthetic data, so every sound becomes a matrix column. */
  lemma EverySoundAtLeastThrice(soundIds: seq<string>, users: seq<nat>, noise: seq<nat>, i: nat)
    requires |users| == SeedsPerSound * |soundIds| + NoiseRows && |noise| == NoiseRows
    requires forall k :: 0 <= k < |noise| ==> noise[k] < |soundIds|
    requires i < |soundIds|
    ensures multiset(SoundsOf(ColdStart(soundIds, users, noise)))[soundIds[i]] >= SeedsPerSound
  {
    var s := SoundsOf(ColdStart(soundIds, users, noise));
    SeededRowsAt(soundIds, users, noise, i);
    ThreeInARow(s, 3 * i, soundIds[i]);
  }

  /** Rows 3i, 3i+1 and 3i+2 are the seeds of sound i. */
  lemma SeededRowsAt(soundIds: seq<string>, users: seq<nat>, noise: seq<nat>, i: nat)
    requires |users| == SeedsPerSound * |soundIds| + NoiseRows && |noise| == NoiseRows
    requires forall k :: 0 <= k < |noise| ==> noise[k] < |soundIds|
    requires i < |soundIds|
    ensures var s := SoundsOf(ColdStart(soundIds, users, noise));
      3 * i + 3 <= |s| && s[3 * i] == soundIds[i] && s[3 * i + 1] == soundIds[i] && s[3 * i + 2] == soundIds[i]
  {
  }

  /** A value three times in a row occurs at least three times. */
  lemma ThreeInARow<T>(s: seq<T>, a: nat, x: T)
    requires a + 3 <= |s| && s[a] == x && s[a + 1] == x && s[a + 2] == x
    ensures multiset(s)[x] >= 3
  {
    assert s == s[..a] + [x, x, x] + s[a + 3..];
    assert multiset(s) == multiset(s[..a]) + multiset([x, x, x]) + multiset(s[a + 3..]);
  }

  /** The hybrid strategy: more than 50 real rows are used as they are;
      otherwise the synthetic cold-start data is. */
  function TrainingRows(logged: seq<Interaction>, soundIds: seq<string>, users: seq<nat>, noise: seq<nat>): (rows: seq<Row>)
    requires |users| == SeedsPerSound * |soundIds| + NoiseRows && |noise| == NoiseRows
    requires forall k :: 0 <= k < |noise| ==> noise[k] < |soundIds|
    ensures |logged| > RealDataThreshold ==>
      (|rows| == |logged| && forall k :: 0 <= k < |rows| ==> rows[k] == Row(logged[k].userId, logged[k].soundId, 1))
    ensures |logged| <= RealDataThreshold ==> rows == ColdStart(soundIds, users, noise)
  {
    if |logged| > RealDataThreshold then
      seq(|logged|, k requires 0 <= k < |logged| => Row(logged[k].userId, logged[k].soundId, 1))
    else ColdStart(soundIds, users, noise)
  }

  /** `min(12, n_features - 1)`, then at least 1. */
  function NComponents(nFeatures: nat): (c: nat)
    ensures 1 <= c <= 12
    ensures nFeatures >= 2 ==> c < nFeatures
    ensures nFeatures >= 13 ==> c == 12
  {
    Max(1, Min(12, nFeatures - 1))
  }

  // ---------------------------------------------------------------------
  // Fetching with retries

  const MaxRetries: nat := 3

  /** One attempt to read the interactions and the sound ids. */
  datatype Attempt = Failed | Fetched(interactions: seq<Interaction>, soundIds: seq<string>)

  /** The first of the (at most three) attempts that succeeded. */
  function FirstSuccess(attempts: seq<Attempt>): (r: Option<Attempt>)
    ensures r.Some? ==> r.value.Fetched? && r.value in attempts
    ensures r.None? <==> forall k :: 0 <= k < |attempts| ==> attempts[k].Failed?
    decreases |attempts|
  {
    if |attempts| == 0 then None
    else if attempts[0].Fetched? then Some(attempts[0])
    else FirstSuccess(attempts[1..])
  }

  /** The correlation matrix with the columns it is indexed by. */
  datatype Trained = Trained(columns: seq<string>, corr: seq<seq<real>>)

  datatype Engine = Engine(model: Option<Trained>, soundIds: seq<string>)

  const Unstarted := Engine(None, [])

  /** What the training block after a successful fetch produced. The rows
      are built from the fetched data, so the pivot always succeeds and
      rebuilds the columns; then either the SVD and the correlation
      succeed, or one of them raises (a single sound column, for which
      one component is not fewer than the one feature, makes the SVD
      refuse) after `self.model` was already replaced by the new,
      unfitted, and still truthy SVD object. */
  datatype Fit = Fitted(trained: Trained) | FitRaised(columns: seq<string>)

  /** The correlation rows a failed fit leaves in place: the previous
      model's, or none on first training. A missing `corr_matrix` makes
      `len(self.corr_matrix)` raise inside the `try` of
      `recommend_for_sound`, which falls back exactly as a row index past
      an empty matrix does. */
  function StaleCorr(e: Engine): seq<seq<real>>
  {
    if e.model.Some? then e.model.value.corr else []
  }

  /** `train_mock_model`. Only the first three attempts are made; when all
      fail the id list is emptied and the previous model kept. An empty id
      list also stops training. Otherwise the model is replaced: by the
      fit, or, when the fit raised, by the new columns over the stale
      correlation rows. */
  function Retrain(e: Engine, attempts: seq<Attempt>, fit: Fit): (r: Engine)
    ensures FirstSuccess(Take(attempts, MaxRetries)).None? ==> r == Engine(e.model, [])
    ensures FirstSuccess(Take(attempts, MaxRetries)).Some? ==>
      r.soundIds == FirstSuccess(Take(attempts, MaxRetries)).value.soundIds
    ensures !Trains(attempts) ==> r.model == e.model
    ensures Trains(attempts) && fit.Fitted? ==> r.model == Some(fit.trained) && r.soundIds != []
    ensures Trains(attempts) && fit.FitRaised? ==>
      r.model.Some? && r.model.value.columns == fit.columns && r.model.value.corr == StaleCorr(e)
      && r.soundIds != []
  {
    match FirstSuccess(Take(attempts, MaxRetries))
    case None => e.(soundIds := [])
    case Some(got) =>
      if got.soundIds == [] then e.(soundIds := [])
      else match fit
        case Fitted(t) => Engine(Some(t), got.soundIds)
        case FitRaised(cols) => Engine(Some(Trained(cols, StaleCorr(e))), got.soundIds)
  }

  /** A retrain reaches the training block: one of the first three
      attempts succeeded with a non-empty id list. */
  predicate Trains(attempts: seq<Attempt>)
  {
    FirstSuccess(Take(attempts, MaxRetries)).Some?
    && FirstSuccess(Take(attempts, MaxRetries)).value.soundIds != []
  }

  /** Attempts after the first success are never made: a successful first
      fetch decides the retrain on its own. */
  lemma FirstFetchDecides(e: Engine, got: Attempt, later: seq<Attempt>, fit: Fit)
    requires got.Fetched?
    ensures Retrain(e, [got] + later, fit) == Retrain(e, [got], fit)
  {
    assert Take([got] + later, MaxRetries)[0] == got;
    assert Take([got], MaxRetries) == [got];
  }

  /** Three failed attempts switch recommendations off, whatever a fourth
      attempt would have returned. */
  lemma ThreeFailuresSwitchOff(e: Engine, later: seq<Attempt>, fit: Fit, id: string, topK: nat, ranks: seq<real> -> seq<nat>, sample: seq<nat>)
    requires forall row :: ValidRanking(ranks(row), row)
    ensures var r := Retrain(e, [Failed, Failed, Failed] + later, fit);
      r.soundIds == [] && Recommend(r, id, topK, ranks, sample) == []
  {
    assert Take([Failed, Failed, Failed] + later, MaxRetries) == [Failed, Failed, Failed];
  }

  /** A first training whose fit raises still switches recommendations on:
      the model is truthy, so an unknown sound gets the random fallback
      from the fetched ids instead of an empty answer, and the one known
      sound falls back too, for want of correlation rows. */
  lemma FailedFirstFitStillAnswers(s: string, other: string, rows: seq<Interaction>, topK: nat,
                                   ranks: seq<real> -> seq<nat>, sample: seq<nat>)
    requires forall row :: ValidRanking(ranks(row), row)
    requires other != s && topK >= 1 && ValidSample(sample, 1, topK)
    ensures var r := Retrain(Unstarted, [Fetched(rows, [s])], FitRaised([s]));
      r.model.Some? && Recommend(r, other, topK, ranks, sample) == [s]
      && Recommend(r, s, topK, ranks, []) == []
  {
    var r := Retrain(Unstarted, [Fetched(rows, [s])], FitRaised([s]));
    assert Take([Fetched(rows, [s])], MaxRetries) == [Fetched(rows, [s])];
    assert r == Engine(Some(Trained([s], [])), [s]);
    assert Others([s], other) == [s];
    assert Others([s], s) == [];
    assert sample == [0];
  }

  // ---------------------------------------------------------------------
  // Ranking

  predicate NonIncreasing(p: seq<nat>, row: seq<real>)
  {
    (forall k :: 0 <= k < |p| ==> p[k] < |row|)
    && (forall i, j :: 0 <= i < j < |p| ==> row[p[i]] >= row[p[j]])
  }

  /** `np.argsort(row)[::-1]`: every position of the row once, highest
      value first. */
  predicate ValidRanking(order: seq<nat>, row: seq<real>)
  {
    |order| == |row|
    && NonIncreasing(order, row)
    && (forall i, j :: 0 <= i < j < |order| ==> order[i] != order[j])
    && (forall v :: 0 <= v < |row| ==> v in order)
  }

  /** The scan ended normally with these column positions, or indexed the
      columns out of range. */
  datatype Ranking = Ranked(picks: seq<nat>) | IndexError

  /** The candidate loop: map each ranked position to its column, skip the
      queried sound, append, and stop once `top_k` are collected. The
      length test follows the append, so a `top_k` of 0 still keeps one. */
  function Collect(columns: seq<string>, order: seq<nat>, soundId: string, topK: nat, acc: seq<nat>): (r: Ranking)
    requires |acc| < Max(topK, 1)
    requires forall k :: 0 <= k < |acc| ==> acc[k] < |columns| && columns[acc[k]] != soundId
    ensures r.Ranked? ==> |acc| <= |r.picks| <= Max(topK, 1) && r.picks[..|acc|] == acc
    ensures r.Ranked? ==> forall k :: 0 <= k < |r.picks| ==> r.picks[k] < |columns| && columns[r.picks[k]] != soundId
    ensures (forall k :: 0 <= k < |order| ==> order[k] < |columns|) ==> r.Ranked?
    decreases |order|
  {
    if |order| == 0 then Ranked(acc)
    else if order[0] >= |columns| then IndexError
    else if columns[order[0]] == soundId then Collect(columns, order[1..], soundId, topK, acc)
    else
      var acc' := acc + [order[0]];
      if |acc'| >= topK then Ranked(acc')
      else Collect(columns, order[1..], soundId, topK, acc')
  }

  /** The kept positions come in the order of the ranking, so their
      correlations never increase. */
  lemma {:induction false} CollectDescends(columns: seq<string>, order: seq<nat>, soundId: string, topK: nat, acc: seq<nat>, row: seq<real>)
    requires |acc| < Max(topK, 1)
    requires forall k :: 0 <= k < |acc| ==> acc[k] < |columns| && columns[acc[k]] != soundId
    requires NonIncreasing(order, row) && NonIncreasing(acc, row)
    requires forall a, k :: 0 <= a < |acc| && 0 <= k < |order| ==> row[acc[a]] >= row[order[k]]
    ensures var r := Collect(columns, order, soundId, topK, acc);
      r.Ranked? ==> NonIncreasing(r.picks, row)
    decreases |order|
  {
    if |order| > 0 && order[0] < |columns| {
      var rest := order[1..];
      assert NonIncreasing(rest, row);
      if columns[order[0]] == soundId {
        CollectDescends(columns, rest, soundId, topK, acc, row);
      } else {
        var acc' := acc + [order[0]];
        assert forall k :: 0 <= k < |rest| ==> row[order[0]] >= row[rest[k]];
        if |acc'| < topK {
          CollectDescends(columns, rest, soundId, topK, acc', row);
        }
      }
    }
  }

  /** A position out of the columns' range that the scan reaches before it
      can collect `top_k` makes the whole scan fail. */
  lemma {:induction false} ReachesBadIndex(columns: seq<string>, order: seq<nat>, soundId: string, topK: nat, acc: seq<nat>, f: nat)
    requires |acc| < Max(topK, 1)
    requires forall k :: 0 <= k < |acc| ==> acc[k] < |columns| && columns[acc[k]] != soundId
    requires f < |order| && order[f] >= |columns| && |acc| + f < topK
    ensures Collect(columns, order, soundId, topK, acc) == IndexError
    decreases f
  {
    if order[0] < |columns| {
      var acc' := if columns[order[0]] == soundId then acc else acc + [order[0]];
      ReachesBadIndex(columns, order[1..], soundId, topK, acc', f - 1);
    }
  }

  // ---------------------------------------------------------------------
  // Recommending

  function Others(soundIds: seq<string>, soundId: string): (r: seq<string>)
    ensures forall s :: s in r <==> s in soundIds && s != soundId
  {
    if |soundIds| == 0 then []
    else if soundIds[0] == soundId then Others(soundIds[1..], soundId)
    else [soundIds[0]] + Others(soundIds[1..], soundId)
  }

  /** `random.sample(candidates, k)`: `k` distinct positions. */
  predicate ValidSample(sample: seq<nat>, n: nat, topK: nat)
  {
    |sample| == Min(n, topK)
    && (forall k :: 0 <= k < |sample| ==> sample[k] < n)
    && (forall i, j :: 0 <= i < j < |sample| ==> sample[i] != sample[j])
  }

  /** `get_random_fallback`: up to `top_k` of the other sounds, drawn
      without replacement. */
  function Fallback(soundIds: seq<string>, soundId: string, topK: nat, sample: seq<nat>): (r: seq<string>)
    requires ValidSample(sample, |Others(soundIds, soundId)|, topK)
    ensures |r| == Min(|Others(soundIds, soundId)|, topK)
    ensures forall s :: s in r ==> s in soundIds && s != soundId
  {
    var others := Others(soundIds, soundId);
    var r := seq(|sample|, k requires 0 <= k < |sample| => others[sample[k]]);
    assert forall k :: 0 <= k < |r| ==> r[k] in others;
    r
  }

  function IndexOf(xs: seq<string>, x: string): (i: nat)
    requires x in xs
    ensures i < |xs| && xs[i] == x && x !in xs[..i]
  {
    if xs[0] == x then 0 else 1 + IndexOf(xs[1..], x)
  }

  function Names(columns: seq<string>, picks: seq<nat>): (r: seq<string>)
    requires forall k :: 0 <= k < |picks| ==> picks[k] < |columns|
    ensures |r| == |picks| && forall k :: 0 <= k < |picks| ==> r[k] == columns[picks[k]]
  {
    seq(|picks|, k requires 0 <= k < |picks| => columns[picks[k]])
  }

  /** `recommend_for_sound`. `ranks` is the descending argsort, `sample`
      the fallback's random draw. With no model or no ids the answer is
      empty. An unknown sound, a row index past the matrix, an index
      error in the scan or an empty scan all fall back. */
  function Recommend(e: Engine, soundId: string, topK: nat, ranks: seq<real> -> seq<nat>, sample: seq<nat>): (r: seq<string>)
    requires forall row :: ValidRanking(ranks(row), row)
    requires e.model.None? || e.soundIds == [] || ValidSample(sample, |Others(e.soundIds, soundId)|, topK)
    ensures e.model.None? || e.soundIds == [] ==> r == []
    ensures soundId !in r
    ensures |r| <= Max(topK, 1)
    ensures e.model.Some? && e.soundIds != [] && soundId !in e.model.value.columns ==>
      r == Fallback(e.soundIds, soundId, topK, sample)
    ensures e.model.Some? && e.soundIds != [] && soundId in e.model.value.columns
            && IndexOf(e.model.value.columns, soundId) >= |e.model.value.corr| ==>
      r == Fallback(e.soundIds, soundId, topK, sample)
    ensures e.model.Some? && e.soundIds != [] && soundId in e.model.value.columns
            && IndexOf(e.model.value.columns, soundId) < |e.model.value.corr| ==>
      ScanAnswer(e, soundId, topK, ranks, sample, r)
  {
    if e.model.None? || e.soundIds == [] then []
    else
      var m := e.model.value;
      if soundId !in m.columns then Fallback(e.soundIds, soundId, topK, sample)
      else
        var idx := IndexOf(m.columns, soundId);
        if idx >= |m.corr| then Fallback(e.soundIds, soundId, topK, sample)
        else match Collect(m.columns, ranks(m.corr[idx]), soundId, topK, [])
          case IndexError => Fallback(e.soundIds, soundId, topK, sample)
          case Ranked(picks) =>
            if picks == [] then Fallback(e.soundIds, soundId, topK, sample)
            else
              assert ValidRanking(ranks(m.corr[idx]), m.corr[idx]);
              CollectDescends(m.columns, ranks(m.corr[idx]), soundId, topK, [], m.corr[idx]);
              Names(m.columns, picks)
  }

  /** The answer for a known sound with a correlation row: the column
      names the scan kept, in non-increasing order of correlation with the
      sound, when the scan ends normally with something; otherwise the
      random fallback. */
  predicate ScanAnswer(e: Engine, soundId: string, topK: nat, ranks: seq<real> -> seq<nat>, sample: seq<nat>, r: seq<string>)
    requires forall row :: ValidRanking(ranks(row), row)
    requires e.model.Some? && soundId in e.model.value.columns
    requires IndexOf(e.model.value.columns, soundId) < |e.model.value.corr|
    requires ValidSample(sample, |Others(e.soundIds, soundId)|, topK)
  {
    var m := e.model.value;
    var row := m.corr[IndexOf(m.columns, soundId)];
    match Collect(m.columns, ranks(row), soundId, topK, [])
    case Ranked(picks) =>
      if picks == [] then r == Fallback(e.soundIds, soundId, topK, sample)
      else NonIncreasing(picks, row) && r == Names(m.columns, picks)
    case IndexError => r == Fallback(e.soundIds, soundId, topK, sample)
  }

  /** The unknown-sound case of the recommender's own check: five sounds,
      "sound_999" asked for, four others returned, none of them itself. */
  lemma UnknownSoundFallsBack(m: Trained, ranks: seq<real> -> seq<nat>, sample: seq<nat>)
    requires forall row :: ValidRanking(ranks(row), row)
    requires "sound_999" !in m.columns
    requires ValidSample(sample, 5, 4)
    ensures var ids := ["sound_1", "sound_2", "sound_3", "sound_4", "sound_5"];
      var r := Recommend(Engine(Some(m), ids), "sound_999", 4, ranks, sample);
      |r| == 4 && forall s :: s in r ==> s in ids
  {
    var ids := ["sound_1", "sound_2", "sound_3", "sound_4", "sound_5"];
    assert Others(ids, "sound_999") == ids;
    var r := Recommend(Engine(Some(m), ids), "sound_999", 4, ranks, sample);
    assert r == Fallback(ids, "sound_999", 4, sample);
  }

  // ---------------------------------------------------------------------
  // The correlation matrix, as written and as intended

  /** `np.corrcoef(vectors)`: the correlation of every row vector with every
      other; `pearson` is the coefficient. */
  function Corrcoef(vectors: seq<seq<real>>, pearson: (seq<real>, seq<real>) -> real): (c: seq<seq<real>>)
    ensures |c| == |vectors| && forall i :: 0 <= i < |c| ==> |c[i]| == |vectors|
  {
    seq(|vectors|, i requires 0 <= i < |vectors| =>
      seq(|vectors|, j requires 0 <= j < |vectors| => pearson(vectors[i], vectors[j])))
  }

  /** As written: `np.corrcoef(self.matrix_reduced)`, whose rows are the
      users' reduced vectors, so the matrix is users by users while it is
      indexed by sound columns. */
  function FitAsWritten(columns: seq<string>, userVectors: seq<seq<real>>, pearson: (seq<real>, seq<real>) -> real): (t: Trained)
    ensures t.columns == columns && |t.corr| == |userVectors|
    ensures forall i :: 0 <= i < |t.corr| ==> |t.corr[i]| == |userVectors|
  {
    Trained(columns, Corrcoef(userVectors, pearson))
  }

  /** As intended: a sound-by-sound correlation, one latent vector per
      matrix column (for instance the columns of the SVD's components). */
  function FitIntended(columns: seq<string>, soundVectors: seq<seq<real>>, pearson: (seq<real>, seq<real>) -> real): (t: Trained)
    requires |soundVectors| == |columns|
    ensures t.columns == columns && |t.corr| == |columns|
    ensures forall i :: 0 <= i < |t.corr| ==> |t.corr[i]| == |columns|
  {
    Trained(columns, Corrcoef(soundVectors, pearson))
  }

  /** As written, with more users than sounds and no more sounds than
      `top_k`, the scan always meets a user index that is no sound column,
      the `IndexError` is caught, and the answer is the random fallback
      whatever the correlations: here two sounds and three mock users. */
  lemma UserCorrelationFallsBack(userVectors: seq<seq<real>>, pearson: (seq<real>, seq<real>) -> real,
                                 ranks: seq<real> -> seq<nat>, sample: seq<nat>)
    requires forall row :: ValidRanking(ranks(row), row)
    requires |userVectors| == 3
    requires ValidSample(sample, 1, 4)
    ensures var ids := ["a", "b"];
      var e := Engine(Some(FitAsWritten(ids, userVectors, pearson)), ids);
      Recommend(e, "a", 4, ranks, sample) == Fallback(ids, "a", 4, sample)
  {
    var ids := ["a", "b"];
    assert Others(ids, "a") == ["b"];
    var m := FitAsWritten(ids, userVectors, pearson);
    assert IndexOf(ids, "a") == 0;
    var row := m.corr[0];
    var order := ranks(row);
    assert ValidRanking(order, row);
    assert 2 in order;
    var f :| 0 <= f < |order| && order[f] == 2;
    ReachesBadIndex(ids, order, "a", 4, [], f);
  }

  /** As intended, a known sound is answered from its correlation row: no
      index error, never itself, at most `top_k` (one when `top_k` is 0),
      in non-increasing order of correlation with it. */
  lemma RankedBySoundCorrelation(columns: seq<string>, soundVectors: seq<seq<real>>, pearson: (seq<real>, seq<real>) -> real,
                                 soundIds: seq<string>, soundId: string, topK: nat, ranks: seq<real> -> seq<nat>)
    requires forall row :: ValidRanking(ranks(row), row)
    requires |soundVectors| == |columns| && soundId in columns
    ensures var m := FitIntended(columns, soundVectors, pearson);
      var row := m.corr[IndexOf(columns, soundId)];
      var r := Collect(columns, ranks(row), soundId, topK, []);
      r.Ranked? && |r.picks| <= Max(topK, 1) && NonIncreasing(r.picks, row)
      && (forall k :: 0 <= k < |r.picks| ==> columns[r.picks[k]] != soundId)
  {
    var m := FitIntended(columns, soundVectors, pearson);
    var row := m.corr[IndexOf(columns, soundId)];
    var order := ranks(row);
    assert ValidRanking(order, row);
    CollectDescends(columns, order, soundId, topK, [], row);
  }

  /** As intended, when another sound exists the answer is the ranked scan
      and not the fallback. */
  lemma IntendedAnswersFromTheRow(columns: seq<string>, soundVectors: seq<seq<real>>, pearson: (seq<real>, seq<real>) -> real,
                                  soundIds: seq<string>, soundId: string, topK: nat, ranks: seq<real> -> seq<nat>, sample: seq<nat>)
    requires forall row :: ValidRanking(ranks(row), row)
    requires |soundVectors| == |columns| && soundId in columns && soundIds != []
    requires exists k :: 0 <= k < |columns| && columns[k] != soundId
    requires ValidSample(sample, |Others(soundIds, soundId)|, topK)
    ensures var m := FitIntended(columns, soundVectors, pearson);
      var row := m.corr[IndexOf(columns, soundId)];
      var r := Collect(columns, ranks(row), soundId, topK, []);
      r.Ranked? && r.picks != [] && Recommend(Engine(Some(m), soundIds), soundId, topK, ranks, sample) == Names(columns, r.picks)
  {
    var m := FitIntended(columns, soundVectors, pearson);
    var row := m.corr[IndexOf(columns, soundId)];
    var order := ranks(row);
    assert ValidRanking(order, row);
    var k :| 0 <= k < |columns| && columns[k] != soundId;
    assert k in order;
    var f :| 0 <= f < |order| && order[f] == k;
    NonEmptyScan(columns, order, soundId, topK, [], f);
  }

  /** A scan that passes a column other than the queried one keeps it (or
      stopped earlier with something kept). */
  lemma {:induction false} NonEmptyScan(columns: seq<string>, order: seq<nat>, soundId: string, topK: nat, acc: seq<nat>, f: nat)
    requires |acc| < Max(topK, 1)
    requires forall k :: 0 <= k < |acc| ==> acc[k] < |columns| && columns[acc[k]] != soundId
    requires forall k :: 0 <= k < |order| ==> order[k] < |columns|
    requires f < |order| && columns[order[f]] != soundId
    ensures Collect(columns, order, soundId, topK, acc).Ranked?
    ensures Collect(columns, order, soundId, topK, acc).picks != []
    decreases f
  {
    if f > 0 && |order| > 0 {
      var acc' := if columns[order[0]] == soundId then acc else acc + [order[0]];
      if |acc'| < topK || columns[order[0]] == soundId {
        NonEmptyScan(columns, order[1..], soundId, topK, acc', f - 1);
      }
    }
  }
}
