/** The quiz conversation: its states, the routing table that decides which
    handler an incoming update reaches in each state, and one user's session
    with one method per handler. */
module Conversation {
  import opened Wrappers
  import opened QuizBank
  import opened Messages

  /** `NotStarted` and `Ended` are the two faces of "no conversation": before
      the first /start, and after a handler returned END. `Question` waits for a
      question request, `Answer` for an answer. */
  datatype State = NotStarted | Question | Answer | Ended

  /** An update from one user: a bot command (`/start`, `/cancel`), any other
      text message, or a tap on an inline button carrying its callback payload. */
  datatype Event = Command(name: string) | Text(text: string) | Tap(data: string)

  datatype Handler = Start | Cancel | NewQuestion | About | GiveUp | SolutionAttempt

  /** The pattern `^(caption)$` under a regular-expression search: `$` also
      matches just before a final newline. */
  predicate Matches(text: string, caption: string) {
    text == caption || text == caption + "\n"
  }

  /** What a route listens for: a command, a text matching a button caption, any button tap. */
  datatype Filter = OnCommand(name: string) | OnText(caption: string) | OnTap

  datatype Route = Route(filter: Filter, handler: Handler)

  predicate Accepts(f: Filter, e: Event) {
    match f
    case OnCommand(n) => e == Command(n)
    case OnText(l) => e.Text? && Matches(e.text, l)
    case OnTap => e.Tap?
  }

  /** The routes are tried in order; the first whose filter accepts the update wins. */
  function FirstMatch(routes: seq<Route>, e: Event): Option<Handler> {
    if routes == [] then None
    else if Accepts(routes[0].filter, e) then Some(routes[0].handler)
    else FirstMatch(routes[1..], e)
  }

  /** No handler exactly when no route accepts; otherwise the handler of the
      first accepting route. */
  lemma {:induction false} FirstMatchIsFirst(routes: seq<Route>, e: Event)
    ensures FirstMatch(routes, e).None? <==> forall i :: 0 <= i < |routes| ==> !Accepts(routes[i].filter, e)
    ensures FirstMatch(routes, e).Some? ==>
              exists i :: 0 <= i < |routes| && routes[i].handler == FirstMatch(routes, e).value
                          && Accepts(routes[i].filter, e)
                          && forall j :: 0 <= j < i ==> !Accepts(routes[j].filter, e)
  {
    if routes != [] && !Accepts(routes[0].filter, e) {
      var tail := routes[1..];
      FirstMatchIsFirst(tail, e);
      assert forall i :: 1 <= i < |routes| ==> routes[i] == tail[i - 1];
      if FirstMatch(tail, e).Some? {
        var i :| 0 <= i < |tail| && tail[i].handler == FirstMatch(tail, e).value
                 && Accepts(tail[i].filter, e)
                 && forall j :: 0 <= j < i ==> !Accepts(tail[j].filter, e);
        assert routes[i + 1] == tail[i];
        forall j | 0 <= j < i + 1
          ensures !Accepts(routes[j].filter, e)
        {
          if j > 0 { assert routes[j] == tail[j - 1]; }
        }
      }
    }
  }

  /** The entry points, the per-state routes and the fallbacks of the conversation. */
  const EntryPoints: seq<Route> := [Route(OnCommand("start"), Start)]

  function StateRoutes(s: State): seq<Route> {
    match s
    case Question => [Route(OnText(NewQuestionLabel), NewQuestion), Route(OnText(AboutLabel), About)]
    case Answer => [Route(OnText(GiveUpLabel), GiveUp), Route(OnText(AboutLabel), About),
                    Route(OnTap, SolutionAttempt)]
    case _ => []
  }

  /** Within one state no update is accepted by two routes: the three captions
      are distinct even with the trailing newline `Matches` allows, so the
      order of a state's routes does not decide which handler runs. */
  lemma RoutesDisjoint(s: State, e: Event, i: int, j: int)
    requires 0 <= i < j < |StateRoutes(s)|
    ensures !(Accepts(StateRoutes(s)[i].filter, e) && Accepts(StateRoutes(s)[j].filter, e))
  {
  }

  const Fallbacks: seq<Route> := [Route(OnCommand("cancel"), Cancel)]

  /** Which handler an update reaches. Outside a conversation only the entry
      points are tried; inside one, the state's routes and then the fallbacks. */
  function Dispatch(s: State, e: Event): Option<Handler> {
    if s == NotStarted || s == Ended then FirstMatch(EntryPoints, e)
    else
      match FirstMatch(StateRoutes(s), e)
      case Some(h) => Some(h)
      case None => FirstMatch(Fallbacks, e)
  }

  /** The table read per handler: /start only outside a conversation, /cancel
      in every conversation state, "new question" only in Question, "give up"
      and button taps only in Answer, "about" in both. No other update reaches
      a handler. */
  lemma DispatchByHandler(s: State, e: Event)
    ensures Dispatch(s, e) == Some(Start) <==> (s == NotStarted || s == Ended) && e == Command("start")
    ensures Dispatch(s, e) == Some(Cancel) <==> (s == Question || s == Answer) && e == Command("cancel")
    ensures Dispatch(s, e) == Some(NewQuestion) <==> s == Question && e.Text? && Matches(e.text, NewQuestionLabel)
    ensures Dispatch(s, e) == Some(About) <==> (s == Question || s == Answer) && e.Text? && Matches(e.text, AboutLabel)
    ensures Dispatch(s, e) == Some(GiveUp) <==> s == Answer && e.Text? && Matches(e.text, GiveUpLabel)
    ensures Dispatch(s, e) == Some(SolutionAttempt) <==> s == Answer && e.Tap?
  {
    assert EntryPoints[1..] == [] && Fallbacks[1..] == [];
    assert |NewQuestionLabel| == 12 && |GiveUpLabel| == 7 && |AboutLabel| == 16;
    var cancel := if e == Command("cancel") then Some(Cancel) else None;
    assert FirstMatch(Fallbacks, e) == cancel;
    match s {
      case NotStarted =>
        assert Dispatch(s, e) == if e == Command("start") then Some(Start) else None;
      case Ended =>
        assert Dispatch(s, e) == if e == Command("start") then Some(Start) else None;
      case Question =>
        var routes := StateRoutes(s);
        assert routes[1..] == [routes[1]] && routes[1..][1..] == [];
        assert FirstMatch(routes[1..], e) == if e.Text? && Matches(e.text, AboutLabel) then Some(About) else None;
        assert Dispatch(s, e) ==
          if e.Text? && Matches(e.text, NewQuestionLabel) then Some(NewQuestion)
          else if e.Text? && Matches(e.text, AboutLabel) then Some(About)
          else cancel;
      case Answer =>
        var routes := StateRoutes(s);
        assert routes[1..] == [routes[1], routes[2]] && routes[1..][1..] == [routes[2]];
        assert routes[1..][1..][1..] == [];
        assert FirstMatch(routes[1..][1..], e) == if e.Tap? then Some(SolutionAttempt) else None;
        assert FirstMatch(routes[1..], e) ==
          if e.Text? && Matches(e.text, AboutLabel) then Some(About)
          else if e.Tap? then Some(SolutionAttempt) else None;
        assert Dispatch(s, e) ==
          if e.Text? && Matches(e.text, GiveUpLabel) then Some(GiveUp)
          else if e.Text? && Matches(e.text, AboutLabel) then Some(About)
          else if e.Tap? then Some(SolutionAttempt)
          else cancel;
    }
  }

  /** The state each handler returns. */
  function Target(h: Handler): (s: State)
    ensures s == Answer <==> h == NewQuestion
    ensures s == Ended <==> h == Cancel
    ensures s != NotStarted
  {
    match h
    case Start => Question
    case Cancel => Ended
    case NewQuestion => Answer
    case About => Question
    case GiveUp => Question
    case SolutionAttempt => Question
  }

  /** What one update did: nothing (no route accepts it), a reply and a move
      to the handler's next state, or a raise that leaves the state as it was. */
  datatype Outcome =
    | Ignored
    | Replied(handler: Handler, reply: Reply)
    | Raised(handler: Handler, failure: Failure)

  /** One user's conversation: the conversation state and the user's session
      data, whose only entry is the key of the question last sent. The bank is
      shared and never written. */
  class Session {
    const bank: Bank
    var state: State
    var questionNumber: Option<Key>

    /** The session invariant: a stored key is a key of the bank, and while an
        answer is awaited a key is stored. */
    ghost predicate Valid()
      reads this
    {
      (questionNumber.Some? ==> questionNumber.value in bank)
      && (state == Answer ==> questionNumber.Some?)
    }

    /** The question the session points at, if the session holds a key of the bank. */
    function Current(): Option<QuestionRecord>
      reads this
    {
      if questionNumber.Some? && questionNumber.value in bank then Some(bank[questionNumber.value])
      else None
    }

    constructor (bank: Bank)
      ensures this.bank == bank && state == NotStarted && questionNumber == None
      ensures Valid()
    {
      this.bank := bank;
      state := NotStarted;
      questionNumber := None;
    }

    /** `start`: greet with the main menu and wait for a question request. */
    method HandleStart() returns (reply: Reply)
      requires Valid()
      modifies this
      ensures Valid()
      ensures state == Question && questionNumber == old(questionNumber)
      ensures reply == Greeting(MainMenu)
    {
      reply := Greeting(MainMenu);
      state := Target(Start);
    }

    /** `cancel`: say goodbye and end the conversation. The session data is kept. */
    method HandleCancel() returns (reply: Reply)
      requires Valid()
      modifies this
      ensures Valid()
      ensures state == Ended && questionNumber == old(questionNumber)
      ensures reply == Farewell
    {
      reply := Farewell;
      state := Target(Cancel);
    }

    /** `handle_new_question_request`: `pick` is the key the random choice
        returns, which is a key of the bank whenever the bank has one. The key
        is stored before the card is sent, and an answer is awaited. */
    method HandleNewQuestionRequest(pick: Key) returns (r: Result<Reply, Failure>)
      requires Valid()
      requires bank == map[] || pick in bank
      modifies this
      ensures Valid()
      ensures bank == map[] ==> r == Err(EmptyBank) && state == old(state)
                                && questionNumber == old(questionNumber)
      ensures bank != map[] ==> r == Ok(QuestionCard(bank[pick])) && state == Answer
                                && questionNumber == Some(pick)
    {
      if bank == map[] {
        return Err(EmptyBank);
      }
      questionNumber := Some(pick);
      var card := BuildCard(bank[pick]);
      r := Ok(card);
      state := Target(NewQuestion);
    }

    /** `handle_solution_attempt`: judge the tapped payload against the stored
        question and wait for the next question request. */
    method HandleSolutionAttempt(data: string) returns (r: Result<Reply, Failure>)
      requires Valid()
      modifies this
      ensures Valid()
      ensures questionNumber == old(questionNumber)
      ensures old(Current()).None? ==> r == Err(MissingQuestion) && state == old(state)
      ensures old(Current()).Some? ==> r == Judge(old(Current()).value, data)
      ensures state == if r.Ok? then Question else old(state)
    {
      var q := Current();
      if q.None? {
        return Err(MissingQuestion);
      }
      r := Judge(q.value, data);
      if r.Ok? {
        state := Target(SolutionAttempt);
      }
    }

    /** `handle_give_up`: reveal the stored question's correct text and wait
        for the next question request. */
    method HandleGiveUp() returns (r: Result<Reply, Failure>)
      requires Valid()
      modifies this
      ensures Valid()
      ensures questionNumber == old(questionNumber)
      ensures old(Current()).None? ==> r == Err(MissingQuestion) && state == old(state)
      ensures old(Current()).Some? ==> r == Ok(Reveal(old(Current()).value.correct)) && state == Question
    {
      var q := Current();
      if q.None? {
        return Err(MissingQuestion);
      }
      r := Ok(Reveal(q.value.correct));
      state := Target(GiveUp);
    }

    /** `handle_about`: the fixed information text; whatever the state it was
        sent from, the conversation waits for a question request afterwards. */
    method HandleAbout() returns (reply: Reply)
      requires Valid()
      modifies this
      ensures Valid()
      ensures state == Question && questionNumber == old(questionNumber)
      ensures reply == AboutInfo
    {
      reply := AboutInfo;
      state := Target(About);
    }

    /** One update through the conversation: route it, run the handler, and
        move to the state the handler returns. The invariant is kept, so the
        lookups of the stored key in the answer and give-up handlers never fail. */
    method Receive(e: Event, pick: Key) returns (out: Outcome)
      requires Valid()
      requires bank == map[] || pick in bank
      modifies this
      ensures Valid()
      ensures out.Ignored? <==> Dispatch(old(state), e).None?
      ensures !out.Ignored? ==> Dispatch(old(state), e) == Some(out.handler)
      ensures out.Replied? ==> state == Target(out.handler)
      ensures !out.Replied? ==> state == old(state)
      ensures out.Raised? ==> out.failure != MissingQuestion
      ensures out.Replied? && out.handler == Start ==> out.reply == Greeting(MainMenu)
      ensures out.Replied? && out.handler == Cancel ==> out.reply == Farewell
      ensures out.Replied? && out.handler == About ==> out.reply == AboutInfo
      ensures out.Raised? && !e.Tap? ==> out.handler == NewQuestion && out.failure == EmptyBank && bank == map[]
      ensures out.Replied? && out.handler == NewQuestion ==>
                questionNumber == Some(pick) && out.reply == QuestionCard(bank[pick])
      ensures !(out.Replied? && out.handler == NewQuestion) ==> questionNumber == old(questionNumber)
      ensures out.Replied? && out.handler == GiveUp ==>
                old(Current()).Some? && out.reply == Reveal(old(Current()).value.correct)
      ensures e.Tap? && !out.Ignored? ==>
                out.handler == SolutionAttempt && old(Current()).Some?
                && Judge(old(Current()).value, e.data) == (if out.Replied? then Ok(out.reply) else Err(out.failure))
    {
      DispatchByHandler(state, e);
      var h := Dispatch(state, e);
      if h.None? {
        return Ignored;
      }
      var r: Result<Reply, Failure>;
      match h.value {
        case Start =>
          var reply := HandleStart();
          r := Ok(reply);
        case Cancel =>
          var reply := HandleCancel();
          r := Ok(reply);
        case NewQuestion =>
          r := HandleNewQuestionRequest(pick);
        case About =>
          var reply := HandleAbout();
          r := Ok(reply);
        case GiveUp =>
          r := HandleGiveUp();
        case SolutionAttempt =>
          r := HandleSolutionAttempt(e.data);
      }
      out := if r.Ok? then Replied(h.value, r.value) else Raised(h.value, r.error);
    }
  }

  /** A one-question bank with answers A, B, C where B is correct: after
      /start and a question request, tapping the second button is judged
      "ВЕРНО" and the first "НЕВЕРНО"; each verdict returns to Question. */
  method ExampleRound() {
    var q := QuestionRecord("1", "?", "", ["A", "B", "C"], "B");
    var session := new Session(map["1" := q]);
    DispatchByHandler(NotStarted, Command("start"));
    var out := session.Receive(Command("start"), "1");
    assert out == Replied(Start, Greeting(MainMenu)) && session.state == Question;

    DispatchByHandler(Question, Text(NewQuestionLabel));
    out := session.Receive(Text(NewQuestionLabel), "1");
    assert out == Replied(NewQuestion, QuestionCard(q)) && session.state == Answer;

    var second := QuestionCard(q).keyboard[0][1];
    TapSelectsAnswer(q, 1);
    DispatchByHandler(Answer, Tap(second.data));
    out := session.Receive(Tap(second.data), "1");
    assert out == Replied(SolutionAttempt, Verdict(2, "B", Correct)) && session.state == Question;

    DispatchByHandler(Question, Text(NewQuestionLabel));
    out := session.Receive(Text(NewQuestionLabel), "1");
    var first := QuestionCard(q).keyboard[0][0];
    TapSelectsAnswer(q, 0);
    DispatchByHandler(Answer, Tap(first.data));
    out := session.Receive(Tap(first.data), "1");
    assert out == Replied(SolutionAttempt, Verdict(1, "B", Incorrect)) && session.state == Question;
  }

  /** Inline buttons stay on earlier messages. After giving up on a question
      with four answers and drawing one with two, a tap on the fourth button of
      the old card reaches the answer handler, which raises; the conversation
      stays in Answer. */
  method ExampleStaleButton() {
    var long := QuestionRecord("1", "?", "", ["a", "b", "c", "d"], "d");
    var short := QuestionRecord("2", "?", "", ["x", "y"], "x");
    var session := new Session(map["1" := long, "2" := short]);
    DispatchByHandler(NotStarted, Command("start"));
    var out := session.Receive(Command("start"), "1");
    DispatchByHandler(Question, Text(NewQuestionLabel));
    out := session.Receive(Text(NewQuestionLabel), "1");
    var stale := QuestionCard(long).keyboard[0][3];
    DispatchByHandler(Answer, Text(GiveUpLabel));
    out := session.Receive(Text(GiveUpLabel), "1");
    assert out == Replied(GiveUp, Reveal("d"));
    DispatchByHandler(Question, Text(NewQuestionLabel));
    out := session.Receive(Text(NewQuestionLabel), "2");
    StaleTapRaises(short, 3);
    DispatchByHandler(Answer, Tap(stale.data));
    out := session.Receive(Tap(stale.data), "1");
    assert out == Raised(SolutionAttempt, IndexOutOfRange) && session.state == Answer;
  }
}
