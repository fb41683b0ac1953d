/** The question bank: a read-only map from question key to question record,
    loaded once at startup and shared by every conversation. */
module QuizBank {

  /** A question key of the bank file (a JSON object key). */
  type Key = string

  /** One record of the bank. `image` is the file name of an illustration, or
      the empty text when the question has none. `answers` are shown in order;
      `correct` is the text that counts as the right answer. */
  datatype QuestionRecord = QuestionRecord(
    number: string,
    body: string,
    image: string,
    answers: seq<string>,
    correct: string)

  type Bank = map<Key, QuestionRecord>

  /** The question is sent as a photo with a caption exactly when its image field is truthy. */
  predicate HasImage(q: QuestionRecord) {
    q.image != ""
  }
}
