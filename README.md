# ISTQB trainer quiz conversation, modelled in Dafny

The ISTQB trainer is a Telegram bot that asks multiple-choice questions from a
fixed question bank. A user sends `/start`. From then on the reply keyboard
offers "Новый вопрос" (new question), "Сдаться" (give up) and "Капучино автору!"
(about). A question arrives as a card. The card lists the answers numbered from 1
and has one row of inline buttons. Tapping a button gets the verdict "ВЕРНО"
(correct) or "НЕВЕРНО" (incorrect), the chosen number and the correct answer
text. `/cancel` ends the conversation.

This project models that conversation:

- `wrappers.dfy`: `Option` and `Result`.
- `decimal.dfy`: the number/text conversions the bot depends on. `Show` is
  Python's `str(n)`, used for button captions and callback payloads. `ParseInt`
  is `int(text)`, used to read a payload back. The main lemma is that reading a
  payload back gives the number that was written.
- `quiz_bank.dfy`: the question record and the bank, a read-only
  `map<Key, QuestionRecord>`.
- `messages.dfy`: the replies as data. It covers the question card and its
  keyboard (`QuestionCard` as the specification, `BuildCard` as the loop that
  builds it), the verdict on a tapped payload (`Judge`, including Python's
  negative indexing and the two ways it can raise).
- `conversation.dfy`: the conversation states `NotStarted`, `Question`, `Answer`
  and `Ended`, and the routing table (entry points, per-state routes,
  fallbacks) as data. A text route's filter is the pattern `^(caption)$` under
  a regular-expression search, where `$` also matches before a final newline.
  So `Matches` accepts the caption itself and the caption followed by one
  newline. `Dispatch` follows the table: first matching route wins,
  entry points only outside a conversation, fallbacks only inside one. `Session`
  is one user's conversation state plus the session entry `question_number`.
  It has one method per handler and `Receive`, which routes one update. Its
  invariant `Valid` says two things. A stored key is always a key of the bank.
  While an answer is awaited, a key is stored. So the answer and give-up
  handlers never fail their lookups.

The random choice of a question is a parameter `pick`, required to be a key of
the bank whenever the bank is non-empty. Sending messages is modelled by
returning a `Reply` value.

Behaviour worth noting:

- "About" sent while an answer is awaited moves the conversation back to
  `Question`, because `handle_about` always returns `QUIZ.Question`. It does not
  leave the state unchanged.
- `/cancel` does not clear the session. `question_number` survives the end of
  the conversation.
- Loading the bank does not check that each record's correct text is among its
  answers. `WinnableIff` states what happens when it is not: no button can ever
  be judged correct.
- An out-of-range button index is not reported to the user. The handler raises,
  and the conversation keeps its state.

## Model

| member | source | states |
|---|---|---|
| Decimal.Show | bot_tg.py:69-71 | `str(n)` of a natural number is a non-empty run of decimal digits without a leading zero |
| Decimal.ParseInt | bot_tg.py:91 | `int(text)` gives the decimal value of a run of digits. A leading `+` keeps that value and a leading `-` negates it. It succeeds exactly on these spellings; any other text is a ValueError |
| Decimal.ParseShow | bot_tg.py:71-91 | the payload `callback_data=number` written as text reads back through `int(query.data)` as the same number |
| Decimal.ShowInjective | bot_tg.py:71 | two numbers have the same decimal text exactly when they are equal, so button captions and payloads never collide |
| Messages.QuestionCard | bot_tg.py:57-83 | the card shows the record's number and body. It has exactly one keyboard row, with one button and one listing line per answer. Listing line k is the caption of button k, then ". ", then answer k, in the order of `answers`. The photo is the record's image name when that is non-empty, and there is none otherwise |
| Messages.BuildCard | bot_tg.py:64-72 | the loop over `enumerate(answers)` that appends a line and a button per answer yields exactly the specified card |
| Messages.ButtonsDistinct | bot_tg.py:66-71 | different buttons of one card have different captions and different payloads |
| Messages.PyIndexFromEnd | bot_tg.py:93 | Python indexing of the answers is defined exactly for `-n <= i < n`, and element i is also reached by index `i - n` |
| Messages.Judge | bot_tg.py:88-100 | a payload that `int` rejects raises ValueError, and an index outside the answers raises IndexError. Any other payload gives a verdict. The verdict echoes index + 1 and the stored correct text, and it is "ВЕРНО" exactly when the indexed answer (negative indices included) equals the correct text. So "ВЕРНО" is possible only if the correct text is among the answers |
| Messages.TapSelectsAnswer | bot_tg.py:66-99 | button k of a card is captioned k+1. Its payload, judged against the card's own question, selects answer k: "ВЕРНО" exactly when `answers[k] == correct`, otherwise "НЕВЕРНО". The bot judges against the question stored now, not the card's own (see `Receive`). An in-range button on an older card is therefore judged against the current question |
| Messages.StaleTapRaises | bot_tg.py:91-93 | a payload at or past the number of answers (a button left on an earlier, longer card) raises IndexError instead of producing a verdict |
| Messages.WinnableIff | bot_tg.py:93-94 | some button of a card is judged "ВЕРНО" if and only if the correct text is one of the answers |
| Conversation.FirstMatchIsFirst | bot_tg.py:168-195 | routing selects no handler exactly when no route accepts the update; otherwise it selects the first accepting route |
| Conversation.RoutesDisjoint | bot_tg.py:168-193 | within one state no update is accepted by two routes, so the order of a state's routes never decides which handler runs |
| Conversation.DispatchByHandler | bot_tg.py:165-196 | `/start` is reached only outside a conversation; `/cancel` is reached in `Question` and in `Answer`; "new question" only in `Question`; "give up" and button taps only in `Answer`; "about" in both; each holds in both directions, and nothing else reaches a handler |
| Conversation.Target | bot_tg.py:36-119 | `Answer` is returned only by the new-question handler, and the end of the conversation only by cancel; no handler returns to the not-started state |
| Conversation.Session.constructor | bot_tg.py:165-166 | a fresh user has no conversation and no stored question, and the invariant holds |
| Conversation.Session.HandleStart | bot_tg.py:36-43 | `start` replies with the main-menu keyboard and moves to `Question`, leaving the stored question alone; the session invariant is kept |
| Conversation.Session.HandleCancel | bot_tg.py:46-51 | `cancel` says goodbye and ends the conversation, keeping the stored question; the session invariant is kept |
| Conversation.Session.HandleNewQuestionRequest | bot_tg.py:54-85 | on an empty bank the random choice raises and nothing changes; otherwise the picked key is stored, the card of that question is sent, and the state becomes `Answer`; the session invariant is kept |
| Conversation.Session.HandleSolutionAttempt | bot_tg.py:88-103 | a missing stored question raises KeyError; otherwise the reply is the verdict on the stored question, and `Question` follows only when no error was raised; the stored key is unchanged; the session invariant is kept |
| Conversation.Session.HandleGiveUp | bot_tg.py:106-114 | a missing stored question raises KeyError; otherwise the reply reveals the stored correct text and the state becomes `Question`; session and bank are unchanged; the session invariant is kept |
| Conversation.Session.HandleAbout | bot_tg.py:117-119 | the about text is sent and the state becomes `Question`, from either state; the session invariant is kept |
| Conversation.Session.Receive | bot_tg.py:165-196 | one routed update keeps the session invariant and never raises KeyError. An ignored update changes nothing, a reply moves to the handler's target state, and a raise keeps the state. Only a successful new-question request changes the stored key, always to the picked key. A tap in `Answer` is judged against the stored question |

## Left out

- The Telegram transport is not modelled: sending text, photos and keyboards, removing the keyboard, and the polling loop. These are calls into the client library. A reply is returned as a value.
- The photo branch is only a tag: `photo` is `Some(image)` exactly when the record's image field is non-empty. Opening the file, building its path, and a failure to open it are not modelled. That failure would raise after `question_number` was written.
- Loading the bank from JSON, environment variables, `.env`, command-line arguments and logging are not modelled; the bank is a given map. A JSON `null` image is represented by the empty text, which is also falsy.
- `random.choice` is a parameter constrained to the bank's keys. The uniform distribution is not modelled.
- The exact wording and `dedent` whitespace of the messages are not modelled. Replies keep the fields they show, and listing lines are `str(k+1) + ". " + answer`.
- Conversations are keyed per chat and user, and `user_data` per user. The model is one user in one chat.
- The inline button's integer `callback_data=number` is assumed to come back in `query.data` as its decimal text. This is transport behaviour the bot relies on but does not show.
- Decimal.ParseInt: models `int()` only for an optional sign followed by ASCII digits. The other spellings Python accepts (surrounding whitespace, underscores, non-ASCII digits) are treated as errors. The bot's own buttons only ever send plain digits.
- Command parsing (`/start@botname`, arguments after the command) and edited messages are not modelled. A command is an event of its own.
- Failures of the handlers are reported as `Raised` with the state unchanged. What the library does with the exception beyond that is not modelled.
