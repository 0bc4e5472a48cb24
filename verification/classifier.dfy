/**
  Candidate handling around the text classifier: picking the best-scoring candidate,
  filtering a rejected label out of the candidate list, and turning the stored corpus
  into the training documents the classifier is fed. The classifier itself (training
  and scoring) is a parameter: a function from text to a candidate list.
 */
module Classifier {
  import opened Types
  import opened Strings

  /** A guess is offered only above this score. */
  const GUESS_THRESHOLD: real := 0.5

  /** `k` is the index the left-to-right reduce `x.value > y.value ? x : y` settles on:
      a maximum score, and the last one among equal maxima. */
  predicate IsLastMaximum(gs: seq<Candidate>, k: int) {
    && 0 <= k < |gs|
    && (forall j :: 0 <= j < |gs| ==> gs[j].value <= gs[k].value)
    && (forall j :: k < j < |gs| ==> gs[j].value < gs[k].value)
  }

  /** The reduce over the candidate list, as an index. */
  function BestIndex(gs: seq<Candidate>): (k: nat)
    requires |gs| > 0
    ensures IsLastMaximum(gs, k)
    decreases |gs|
  {
    if |gs| == 1 then 0
    else
      var k := BestIndex(gs[..|gs| - 1]);
      if gs[k].value > gs[|gs| - 1].value then k else |gs| - 1
  }

  /** The reduce's result is determined: there is only one last maximum. */
  lemma LastMaximumUnique(gs: seq<Candidate>, k1: int, k2: int)
    requires IsLastMaximum(gs, k1) && IsLastMaximum(gs, k2)
    ensures k1 == k2
  {
    assert gs[k1].value == gs[k2].value;
  }

  datatype Interpretation = Interpretation(probabilities: seq<Candidate>, guess: Option<string>, probability: real)

  /** Classify the lower-cased phrase; report every candidate, the best score, and the
      best label as a guess when that score is above the threshold. `reduce` without an
      initial value throws on an empty list, so the classifier must return a candidate. */
  function Interpret(phrase: string, classify: string -> seq<Candidate>): (r: Interpretation)
    requires |classify(Lower(phrase))| > 0
    ensures r.probabilities == classify(Lower(phrase))
    ensures exists k :: IsLastMaximum(r.probabilities, k) && r.probability == r.probabilities[k].value
                        && (r.guess.Some? ==> r.guess.value == r.probabilities[k].answerLabel)
    ensures forall c :: c in r.probabilities ==> c.value <= r.probability
    ensures r.guess.Some? <==> r.probability > GUESS_THRESHOLD
  {
    var guesses := classify(Lower(phrase));
    var k := BestIndex(guesses);
    var guess := guesses[k];
    Interpretation(guesses, if guess.value > GUESS_THRESHOLD then Some(guess.answerLabel) else None, guess.value)
  }

  /** The candidates whose label is not `answerLabel`, in their original order. */
  function Without(ps: seq<Candidate>, answerLabel: string): seq<Candidate> {
    if ps == [] then [] else (if ps[0].answerLabel != answerLabel then [ps[0]] else []) + Without(ps[1..], answerLabel)
  }

  lemma {:induction false} WithoutAppend(ps: seq<Candidate>, x: Candidate, answerLabel: string)
    ensures Without(ps + [x], answerLabel) == Without(ps, answerLabel) + (if x.answerLabel != answerLabel then [x] else [])
  {
    if ps == [] {
      assert ps + [x] == [x];
    } else {
      assert (ps + [x])[1..] == ps[1..] + [x];
      WithoutAppend(ps[1..], x, answerLabel);
    }
  }

  /** Build a new list holding every candidate not carrying `answerToRemove`. */
  method RemoveAnswerFromProbabilities(probabilities: seq<Candidate>, answerToRemove: string)
    returns (newProbabilities: seq<Candidate>)
    ensures newProbabilities == Without(probabilities, answerToRemove)
  {
    newProbabilities := [];
    for i := 0 to |probabilities|
      invariant newProbabilities == Without(probabilities[..i], answerToRemove)
    {
      var item := probabilities[i];
      assert probabilities[..i + 1] == probabilities[..i] + [item];
      WithoutAppend(probabilities[..i], item, answerToRemove);
      if item.answerLabel != answerToRemove {
        newProbabilities := newProbabilities + [item];
      }
    }
    assert probabilities[..|probabilities|] == probabilities;
  }

  /** A candidate survives exactly when it was there and does not carry the label. */
  lemma {:induction false} WithoutMembers(ps: seq<Candidate>, answerLabel: string)
    ensures forall c :: c in Without(ps, answerLabel) <==> c in ps && c.answerLabel != answerLabel
  {
    if ps != [] {
      WithoutMembers(ps[1..], answerLabel);
      assert ps == [ps[0]] + ps[1..];
    }
  }

  /** `a` can be obtained from `b` by deleting elements (greedy matching). */
  predicate IsSubsequence(a: seq<Candidate>, b: seq<Candidate>)
    decreases |b|
  {
    if a == [] then true
    else if b == [] then false
    else if a[0] == b[0] then IsSubsequence(a[1..], b[1..])
    else IsSubsequence(a, b[1..])
  }

  /** Removal keeps the other candidates in their original relative order. */
  lemma {:induction false} WithoutIsSubsequence(ps: seq<Candidate>, answerLabel: string)
    ensures IsSubsequence(Without(ps, answerLabel), ps)
  {
    if ps != [] {
      WithoutIsSubsequence(ps[1..], answerLabel);
      var rest := Without(ps[1..], answerLabel);
      if ps[0].answerLabel == answerLabel && rest != [] {
        WithoutMembers(ps[1..], answerLabel);
        assert rest[0] in rest;
        assert Without(ps, answerLabel) == rest;
        assert rest[0] != ps[0];
      }
    }
  }

  /** Removing a label twice is removing it once. */
  lemma {:induction false} WithoutIdempotent(ps: seq<Candidate>, answerLabel: string)
    ensures Without(Without(ps, answerLabel), answerLabel) == Without(ps, answerLabel)
  {
    if ps != [] {
      WithoutIdempotent(ps[1..], answerLabel);
      var rest := Without(ps[1..], answerLabel);
      if ps[0].answerLabel != answerLabel {
        assert Without(ps, answerLabel) == [ps[0]] + rest;
        assert ([ps[0]] + rest)[1..] == rest;
      } else {
        assert Without(ps, answerLabel) == rest;
      }
    }
  }

  /** Removing a label no candidate carries changes nothing. */
  lemma {:induction false} WithoutAbsent(ps: seq<Candidate>, answerLabel: string)
    requires forall c :: c in ps ==> c.answerLabel != answerLabel
    ensures Without(ps, answerLabel) == ps
  {
    if ps != [] {
      assert ps[0] in ps;
      assert forall c :: c in ps[1..] ==> c in ps;
      WithoutAbsent(ps[1..], answerLabel);
      assert ps == [ps[0]] + ps[1..];
    }
  }

  /** Removing a label some candidate carries makes the list strictly shorter. */
  lemma {:induction false} WithoutShrinks(ps: seq<Candidate>, answerLabel: string)
    ensures |Without(ps, answerLabel)| <= |ps|
    ensures (exists c :: c in ps && c.answerLabel == answerLabel) ==> |Without(ps, answerLabel)| < |ps|
  {
    if ps != [] {
      WithoutShrinks(ps[1..], answerLabel);
      assert forall c :: c in ps ==> c == ps[0] || c in ps[1..];
    }
  }

  /** Scores in non-increasing order, as the classifier ranks them. */
  predicate Descending(ps: seq<Candidate>) {
    forall i, j :: 0 <= i < j < |ps| ==> ps[i].value >= ps[j].value
  }

  /** Removal never reorders: a ranked list stays ranked. */
  lemma {:induction false} WithoutKeepsDescending(ps: seq<Candidate>, answerLabel: string)
    requires Descending(ps)
    ensures Descending(Without(ps, answerLabel))
  {
    if ps != [] {
      WithoutKeepsDescending(ps[1..], answerLabel);
      WithoutMembers(ps[1..], answerLabel);
      var rest := Without(ps[1..], answerLabel);
      assert forall c :: c in ps[1..] ==> ps[0].value >= c.value;
      assert forall j :: 0 <= j < |rest| ==> rest[j] in ps[1..];
    }
  }

  /** A training document: a phrase and the record label it should lead to. */
  datatype Document = Document(text: string, answerLabel: string)

  /** The documents one record contributes: each known question, then the answer. */
  function RecordDocuments(answerLabel: string, record: QuestionWithAnswer): seq<Document> {
    seq(|record.questions|, i requires 0 <= i < |record.questions| => Document(record.questions[i], answerLabel))
    + [Document(record.answer, answerLabel)]
  }

  /** The documents of the records under `keys`, in key order. */
  function CorpusDocuments(db: map<string, QuestionWithAnswer>, keys: seq<string>): seq<Document>
    requires forall k :: k in keys ==> k in db
  {
    if keys == [] then []
    else CorpusDocuments(db, keys[..|keys| - 1]) + RecordDocuments(keys[|keys| - 1], db[keys[|keys| - 1]])
  }

  /** Exactly the stored phrases are training documents: every document names a stored
      label and is one of that record's questions or its answer, and every stored question
      and every stored answer is a training document for its label. */
  lemma {:induction false} CorpusDocumentsComplete(db: map<string, QuestionWithAnswer>, keys: seq<string>)
    requires forall k :: k in keys ==> k in db
    ensures forall d :: d in CorpusDocuments(db, keys) ==> d.answerLabel in keys
    ensures forall d :: d in CorpusDocuments(db, keys) ==>
              d.answerLabel in db && (d.text in db[d.answerLabel].questions || d.text == db[d.answerLabel].answer)
    ensures forall k :: k in keys ==> Document(db[k].answer, k) in CorpusDocuments(db, keys)
    ensures forall k, q :: k in keys && q in db[k].questions ==> Document(q, k) in CorpusDocuments(db, keys)
  {
    if keys != [] {
      var init, last := keys[..|keys| - 1], keys[|keys| - 1];
      assert forall k :: k in init ==> k in keys;
      CorpusDocumentsComplete(db, init);
      var docs := RecordDocuments(last, db[last]);
      assert forall k :: k in keys ==> k in init || k == last;
      forall d | d in docs
        ensures d.answerLabel == last
        ensures d.text in db[last].questions || d.text == db[last].answer
      {
        var i :| 0 <= i < |docs| && docs[i] == d;
        if i < |db[last].questions| {
          assert d.text == db[last].questions[i];
        }
      }
      assert Document(db[last].answer, last) == docs[|docs| - 1];
      forall q | q in db[last].questions
        ensures Document(q, last) in docs
      {
        var i :| 0 <= i < |db[last].questions| && db[last].questions[i] == q;
        assert docs[i] == Document(q, last);
      }
    }
  }

  /** Feed every stored record to the classifier as documents. With no record there is
      nothing to train and the result is None; otherwise the documents the classifier
      was given (its training and saving are outside the model). */
  method TrainFromDb(db: map<string, QuestionWithAnswer>, keys: seq<string>)
    returns (trained: Option<seq<Document>>)
    requires forall k :: k in db <==> k in keys
    ensures trained.None? <==> |db| == 0
    ensures trained.Some? ==> trained.value == CorpusDocuments(db, keys)
  {
    var documents: seq<Document> := [];
    var documentCount := 0;
    for i := 0 to |keys|
      invariant documentCount == i
      invariant documents == CorpusDocuments(db, keys[..i])
    {
      var answerLabel := keys[i];
      documentCount := documentCount + 1;
      var document := db[answerLabel];
      var before := documents;
      for j := 0 to |document.questions|
        invariant documents == before + RecordDocuments(answerLabel, document)[..j]
      {
        assert RecordDocuments(answerLabel, document)[..j + 1]
            == RecordDocuments(answerLabel, document)[..j] + [Document(document.questions[j], answerLabel)];
        documents := documents + [Document(document.questions[j], answerLabel)];
      }
      documents := documents + [Document(document.answer, answerLabel)];
      assert RecordDocuments(answerLabel, document)
          == RecordDocuments(answerLabel, document)[..|document.questions|] + [Document(document.answer, answerLabel)];
      assert keys[..i + 1][..i] == keys[..i];
    }
    assert keys[..|keys|] == keys;
    if documentCount == 0 {
      assert forall k :: k !in db;
      assert db == map[];
      return None;
    }
    assert keys[0] in db;
    return Some(documents);
  }
}
