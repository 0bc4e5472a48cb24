/**
  The question/answer record store: a map from label to record. A record stored
  without a label gets one derived from its answer (an md5 hex digest, supplied from
  outside as `hash`); lookups fold the label to lower case; a missing label raises
  the store's DataError.
 */
module Storage {
  import opened Types
  import opened Strings

  type Db = map<string, QuestionWithAnswer>

  /** `getQuestionWithAnswerFromLabel`: the record at the lower-cased label, handed back
      with its label set to the label as given. */
  function GetFromLabel(db: Db, answerLabel: string): (r: Result<QuestionWithAnswer>)
    ensures r.Ok? <==> Lower(answerLabel) in db
    ensures r.Err? ==> r.error == DataError
    ensures r.Ok? ==> && r.value.answerLabel == Some(answerLabel)
                      && r.value.answer == db[Lower(answerLabel)].answer
                      && r.value.questions == db[Lower(answerLabel)].questions
  {
    var key := Lower(answerLabel);
    if key in db then Ok(db[key].(answerLabel := Some(answerLabel))) else Err(DataError)
  }

  /** The label a record is stored under: the one given, else the digest of its answer. */
  function StoreLabel(record: QuestionWithAnswer, answerLabel: Option<string>, hash: string -> string): string {
    if answerLabel.None? then hash(record.answer) else answerLabel.value
  }

  /** The record as stored: when no label was given, the derived one is written into it. */
  function StoredRecord(record: QuestionWithAnswer, answerLabel: Option<string>, hash: string -> string)
    : QuestionWithAnswer
  {
    if answerLabel.None? then record.(answerLabel := Some(hash(record.answer))) else record
  }

  /** `storeOrUpdateLabelledQuestionWithAnswer`: insert or replace under the label. */
  function Store(db: Db, record: QuestionWithAnswer, answerLabel: Option<string>, hash: string -> string): (r: Db)
    ensures r.Keys == db.Keys + {StoreLabel(record, answerLabel, hash)}
    ensures r[StoreLabel(record, answerLabel, hash)].answer == record.answer
    ensures r[StoreLabel(record, answerLabel, hash)].questions == record.questions
    ensures forall k :: k in db && k != StoreLabel(record, answerLabel, hash) ==> r[k] == db[k]
  {
    db[StoreLabel(record, answerLabel, hash) := StoredRecord(record, answerLabel, hash)]
  }

  /** A record stored without a label carries, and sits under, the digest of its answer. */
  lemma StoreWithoutLabel(db: Db, record: QuestionWithAnswer, hash: string -> string)
    ensures Store(db, record, None, hash)[hash(record.answer)] == record.(answerLabel := Some(hash(record.answer)))
  {
  }

  /** Round trip: a record stored without a label is found again under its digest, as long
      as digests are lower case (md5 hex digests are). */
  lemma StoreThenGet(db: Db, record: QuestionWithAnswer, hash: string -> string)
    requires Lower(hash(record.answer)) == hash(record.answer)
    ensures GetFromLabel(Store(db, record, None, hash), hash(record.answer))
         == Ok(record.(answerLabel := Some(hash(record.answer))))
  {
  }

  /** `updateAnswer`: fetch the record (raising DataError if absent), replace its answer,
      and write it back under the label as given. The store hands out the record object
      it holds, so the entry that was read (at the lower-cased label) takes the new answer
      and the relabelling in place as well. */
  function ReplaceAnswer(db: Db, answerLabel: string, answer: string): (r: Result<Db>)
    ensures r.Ok? <==> Lower(answerLabel) in db
    ensures r.Err? ==> r.error == DataError
    ensures r.Ok? ==> r.value.Keys == db.Keys + {answerLabel}
    ensures r.Ok? ==> && answerLabel in r.value
                      && r.value[answerLabel] == db[Lower(answerLabel)].(answerLabel := Some(answerLabel), answer := answer)
    ensures r.Ok? ==> Lower(answerLabel) in r.value && r.value[Lower(answerLabel)] == r.value[answerLabel]
    ensures r.Ok? ==> forall k :: k in db && k != answerLabel && k != Lower(answerLabel) ==> r.value[k] == db[k]
  {
    match GetFromLabel(db, answerLabel)
    case Ok(existing) =>
      var updated := existing.(answer := answer);
      Ok(db[Lower(answerLabel) := updated][answerLabel := updated])
    case Err(e) => Err(e)
  }

  /** For a lower-case label the update reads and writes the same entry: the answer is
      replaced and the label field set to the label; the known questions are kept. */
  lemma ReplaceAnswerKeepsQuestions(db: Db, answerLabel: string, answer: string)
    requires Lower(answerLabel) == answerLabel && answerLabel in db
    ensures ReplaceAnswer(db, answerLabel, answer).Ok?
    ensures ReplaceAnswer(db, answerLabel, answer).value.Keys == db.Keys
    ensures ReplaceAnswer(db, answerLabel, answer).value[answerLabel]
         == db[answerLabel].(answerLabel := Some(answerLabel), answer := answer)
  {
  }

  /** The store object; `db` is updated by every write. */
  class QAStorage {
    var db: Db
    /** The md5 hex digest used to label new records. */
    const hash: string -> string

    constructor (initial: Db, hash: string -> string)
      ensures db == initial && this.hash == hash
    {
      db := initial;
      this.hash := hash;
    }

    method UpdateAnswer(answerLabel: string, answer: string) returns (outcome: Outcome)
      modifies this
      ensures ReplaceAnswer(old(db), answerLabel, answer).Ok? ==>
                db == ReplaceAnswer(old(db), answerLabel, answer).value && outcome == Completed
      ensures ReplaceAnswer(old(db), answerLabel, answer).Err? ==> db == old(db) && outcome == Threw(DataError)
    {
      var existing := GetQuestionWithAnswerFromLabel(answerLabel);
      if existing.Err? {
        return Threw(existing.error);
      }
      // `existing` is the stored object itself: changing it changes the entry it was read from
      var updated := existing.value.(answer := answer);
      db := db[Lower(answerLabel) := updated];
      db := db[answerLabel := updated];
      outcome := Completed;
    }

    method StoreOrUpdateLabelledQuestionWithAnswer(record: QuestionWithAnswer, answerLabel: Option<string>)
      returns (stored: QuestionWithAnswer)
      modifies this
      ensures stored == StoredRecord(record, answerLabel, hash)
      ensures db == Store(old(db), record, answerLabel, hash)
    {
      stored := record;
      var key: string;
      if answerLabel.None? {
        key := hash(record.answer);
        stored := stored.(answerLabel := Some(key));
      } else {
        key := answerLabel.value;
      }
      db := db[key := stored];
    }

    method GetQuestionWithAnswerFromLabel(answerLabel: string) returns (r: Result<QuestionWithAnswer>)
      ensures r == GetFromLabel(db, answerLabel)
    {
      var key := Lower(answerLabel);
      if key !in db {
        return Err(DataError);
      }
      r := Ok(db[key].(answerLabel := Some(answerLabel)));
    }
  }
}
