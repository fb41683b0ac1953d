/** What each handler sends back, as data: the question card with its inline
    keyboard, the verdict on a button tap, the revealed answer, and the fixed
    texts. The wording of the texts is opaque; the fields they show are kept. */
module Messages {
  import opened Wrappers
  import opened Decimal
  import opened QuizBank

  /** The labels of the persistent reply keyboard shown by /start. */
  const NewQuestionLabel: string := "Новый вопрос"
  const GiveUpLabel: string := "Сдаться"
  const AboutLabel: string := "Капучино автору!"

  /** The reply keyboard of /start: two rows, the first with "new question" and "give up". */
  const MainMenu: seq<seq<string>> := [[NewQuestionLabel, GiveUpLabel], [AboutLabel]]

  /** An inline button: its visible text and the callback payload it sends back. */
  datatype Button = Button(text: string, data: string)

  /** "ВЕРНО" or "НЕВЕРНО". */
  datatype Mark = Correct | Incorrect

  datatype Reply =
    | Greeting(menu: seq<seq<string>>)
    | Farewell
    | Card(number: string, body: string, lines: seq<string>,
           keyboard: seq<seq<Button>>, photo: Option<string>)
    | Verdict(choice: int, correct: string, mark: Mark)
    | Reveal(correct: string)
    | AboutInfo

  /** Why a handler raised instead of returning a next state. */
  datatype Failure =
    | EmptyBank         // random.choice over no keys
    | MissingQuestion   // question_number absent from the session, or not a key of the bank
    | InvalidPayload    // int() rejects the callback payload
    | IndexOutOfRange   // answers[index] outside the list

  /** The button for answer k (counting from 0): label k+1, payload k. */
  function AnswerButton(k: nat): Button {
    Button(Show(k + 1), Show(k))
  }

  /** The listing line for answer k: its 1-based number, then the answer text. */
  function AnswerLine(k: nat, answer: string): string {
    Show(k + 1) + ". " + answer
  }

  /** The question card: one keyboard row with one button per answer, in order,
      and a numbered listing of the answers in the same order. */
  function QuestionCard(q: QuestionRecord): (r: Reply)
    ensures r.Card? && r.number == q.number && r.body == q.body
    ensures |r.keyboard| == 1 && |r.keyboard[0]| == |r.lines| == |q.answers|
    ensures forall k :: 0 <= k < |q.answers| ==> r.lines[k] == r.keyboard[0][k].text + ". " + q.answers[k]
    ensures r.photo == if HasImage(q) then Some(q.image) else None
  {
    Card(q.number, q.body,
         seq(|q.answers|, k requires 0 <= k < |q.answers| => AnswerLine(k, q.answers[k])),
         [seq(|q.answers|, k requires 0 <= k < |q.answers| => AnswerButton(k))],
         if HasImage(q) then Some(q.image) else None)
  }

  /** Builds the card the way the new-question handler does: one pass over the
      answers, appending a listing line and a button for each. */
  method BuildCard(q: QuestionRecord) returns (card: Reply)
    ensures card == QuestionCard(q)
  {
    var lines: seq<string> := [];
    var row: seq<Button> := [];
    var k := 0;
    while k < |q.answers|
      invariant 0 <= k <= |q.answers|
      invariant |lines| == |row| == k
      invariant forall j :: 0 <= j < k ==> lines[j] == AnswerLine(j, q.answers[j])
      invariant forall j :: 0 <= j < k ==> row[j] == AnswerButton(j)
    {
      lines := lines + [AnswerLine(k, q.answers[k])];
      row := row + [AnswerButton(k)];
      k := k + 1;
    }
    var photo := if HasImage(q) then Some(q.image) else None;
    card := Card(q.number, q.body, lines, [row], photo);
    assert lines == QuestionCard(q).lines;
    assert row == QuestionCard(q).keyboard[0];
  }

  /** Python's `s[i]`: negative indices count from the end; None is IndexError. */
  function PyIndex(s: seq<string>, i: int): Option<string> {
    if 0 <= i < |s| then Some(s[i])
    else if -|s| <= i < 0 then Some(s[|s| + i])
    else None
  }

  /** Every element has exactly two indices, i and i - |s|; nothing else is in range. */
  lemma PyIndexFromEnd(s: seq<string>, i: int)
    ensures 0 <= i < |s| ==> PyIndex(s, i - |s|) == PyIndex(s, i) == Some(s[i])
    ensures PyIndex(s, i).Some? <==> -|s| <= i < |s|
  {
  }

  /** The solution-attempt verdict for a callback payload: parse the index,
      look the answer up, compare it with the stored correct text, and echo
      index + 1 with the correct text. */
  function Judge(q: QuestionRecord, data: string): (r: Result<Reply, Failure>)
    ensures ParseInt(data).None? ==> r == Err(InvalidPayload)
    ensures ParseInt(data).Some? && PyIndex(q.answers, ParseInt(data).value).None? ==> r == Err(IndexOutOfRange)
    ensures r.Ok? ==> r.value.Verdict? && r.value.correct == q.correct
                      && r.value.choice == ParseInt(data).value + 1
    ensures ParseInt(data).Some? && PyIndex(q.answers, ParseInt(data).value).Some? ==>
              r.Ok? && (r.value.mark == Correct <==> PyIndex(q.answers, ParseInt(data).value).value == q.correct)
    ensures r.Ok? && r.value.mark == Correct ==> q.correct in q.answers
  {
    match ParseInt(data)
    case None => Err(InvalidPayload)
    case Some(i) =>
      match PyIndex(q.answers, i)
      case None => Err(IndexOutOfRange)
      case Some(answer) =>
        Ok(Verdict(i + 1, q.correct, if q.correct != answer then Incorrect else Correct))
  }

  /** Tapping button k of a question's card judges exactly answer k of that
      question: "ВЕРНО" iff that answer is the correct text, echoing k + 1. */
  lemma TapSelectsAnswer(q: QuestionRecord, k: nat)
    requires k < |q.answers|
    ensures QuestionCard(q).keyboard[0][k].text == Show(k + 1)
    ensures Judge(q, QuestionCard(q).keyboard[0][k].data)
            == Ok(Verdict(k + 1, q.correct, if q.answers[k] == q.correct then Correct else Incorrect))
  {
    ParseShow(k);
  }

  /** The buttons of a card carry pairwise distinct labels and payloads. */
  lemma ButtonsDistinct(q: QuestionRecord, j: nat, k: nat)
    requires j < |q.answers| && k < |q.answers| && j != k
    ensures QuestionCard(q).keyboard[0][j].text != QuestionCard(q).keyboard[0][k].text
    ensures QuestionCard(q).keyboard[0][j].data != QuestionCard(q).keyboard[0][k].data
  {
    ShowInjective(j + 1, k + 1);
    ShowInjective(j, k);
  }

  /** A tap whose payload lies past the end of the current answers (a button
      of an earlier, longer question) raises instead of judging. */
  lemma StaleTapRaises(q: QuestionRecord, k: nat)
    requires k >= |q.answers|
    ensures Judge(q, Show(k)) == Err(IndexOutOfRange)
  {
    ParseShow(k);
  }

  /** Some button of the card is judged "ВЕРНО" exactly when the correct text
      is among the answers; the loader does not check this, so a record
      without it can never be answered correctly. */
  lemma WinnableIff(q: QuestionRecord)
    ensures (exists k :: 0 <= k < |q.answers| && Judge(q, Show(k)) == Ok(Verdict(k + 1, q.correct, Correct)))
            <==> q.correct in q.answers
  {
    if q.correct in q.answers {
      var k :| 0 <= k < |q.answers| && q.answers[k] == q.correct;
      ParseShow(k);
      assert Judge(q, Show(k)) == Ok(Verdict(k + 1, q.correct, Correct));
    }
  }
}
