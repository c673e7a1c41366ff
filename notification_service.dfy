// The daily notification batch of bot/services/notification_service.py: the choice of a
// message by hour, the personal greeting, and the loop that sends one message per user and
// counts successes and failures.

module Notifications {
  import opened Common
  import opened Values

  /** `MOTIVATIONAL_MESSAGES`, in order. */
  const MotivationalMessages: seq<string> := [
    "🌅 Доброе утро! Новый день — новые возможности для роста и развития. Какую цель поставите себе сегодня?",
    "☀️ Привет! Помните: каждый маленький шаг к своей мечте приближает вас к успеху. Вы уже на правильном пути!",
    "🌸 Прекрасного дня! Сегодня отличная возможность узнать что-то новое и стать лучше, чем вчера.",
    "💫 Здравствуйте! Ваше желание развиваться вдохновляет. Какой навык хотите улучшить сегодня?",
    "🌺 Доброго времени суток! Помните: самые великие достижения начинаются с одного решения действовать.",
    "🦋 Привет! Вы уже делаете важный шаг, инвестируя в свое развитие. Продолжайте в том же духе!",
    "🌟 Замечательного дня! Каждый день — это шанс написать новую главу своей истории успеха.",
    "🌻 Доброе утро! Ваша настойчивость в обучении — это ключ к достижению всех ваших целей.",
    "✨ Прекрасного дня! Помните: знания — это инвестиция, которая всегда окупается с лихвой.",
    "🎯 Привет! Сегодня новая возможность стать экспертом в том, что вам действительно интересно.",
    "🌈 Доброго времени суток! Ваше стремление к росту — это то, что отличает вас от остальных.",
    "💎 Здравствуйте! Каждый урок, который вы изучаете, делает вас более ценным специалистом.",
    "🚀 Отличного дня! Ваши усилия в обучении сегодня — это ваш успех завтра.",
    "🌙 Доброго вечера! Даже вечером можно найти время для саморазвития. Вы молодец!",
    "⭐ Привет! Ваша целеустремленность в изучении нового материала достойна восхищения."
  ]

  /** `EVENING_MESSAGES`, in order. */
  const EveningMessages: seq<string> := [
    "🌅 Завтра новый день! Подготовьтесь к нему, изучив что-то полезное сегодня вечером.",
    "🌙 Доброго вечера! Время для спокойного изучения и подготовки к завтрашним достижениям.",
    "✨ Вечер — идеальное время для рефлексии и планирования следующих шагов в обучении.",
    "🌆 Прекрасного вечера! Завершите день чем-то полезным для вашего развития.",
    "🌟 Доброго вечера! Даже 15 минут обучения перед сном могут изменить ваше завтра."
  ]

  /** The hours, 18 to 23 inclusive, that get an evening message. */
  predicate IsEvening(hour: int) {
    18 <= hour <= 23
  }

  function MessagesFor(hour: int): seq<string> {
    if IsEvening(hour) then EveningMessages else MotivationalMessages
  }

  /** `random.choice(messages)`, with `pick` the random draw reduced to an index. */
  function Choice(messages: seq<string>, pick: nat): (r: string)
    requires messages != []
    ensures r in messages
  {
    messages[pick % |messages|]
  }

  /** Every member of a list is the choice of some draw. */
  lemma ChoiceCovers(messages: seq<string>, m: string)
    requires m in messages
    ensures exists pick: nat :: Choice(messages, pick) == m
  {
    var i :| 0 <= i < |messages| && messages[i] == m;
    assert Choice(messages, i) == m;
  }

  /** `get_motivational_message`: a draw from the list for the hour. */
  function MotivationalMessage(hour: int, pick: nat): (r: string)
    ensures r in MessagesFor(hour)
  {
    Choice(MessagesFor(hour), pick)
  }

  /** The evening list is used exactly for the hours 18 to 23, the general list otherwise. */
  lemma EveningExactly(hour: int)
    ensures MessagesFor(hour) == EveningMessages <==> IsEvening(hour)
    ensures MessagesFor(hour) == MotivationalMessages <==> !IsEvening(hour)
  {
    assert |EveningMessages| != |MotivationalMessages|;
  }

  /** Every message of the hour's list can be drawn. */
  lemma EveryMessageCanBeDrawn(hour: int, m: string)
    requires m in MessagesFor(hour)
    ensures exists pick: nat :: MotivationalMessage(hour, pick) == m
  {
    ChoiceCovers(MessagesFor(hour), m);
    var pick: nat :| Choice(MessagesFor(hour), pick) == m;
    assert MotivationalMessage(hour, pick) == m;
  }

  // ------------------------------------------------------------------ greeting and hour key

  const GreetingPrefix: string := "Привет, "
  const GreetingSuffix: string := "! "
  const UnknownUser: Value := VStr("Unknown")

  /** Whether a user's name is used: it is truthy and is not the placeholder `'Unknown'`. */
  predicate Greets(username: Value) {
    Truthy(username) && username != UnknownUser
  }

  /** The text sent to one user: the greeting and the drawn message, or the bare message. */
  function PersonalMessage(username: Value, message: string): (r: string)
    ensures Greets(username) ==> r == GreetingPrefix + Show(username) + GreetingSuffix + message
    ensures !Greets(username) ==> r == message
    ensures EndsWith(r, message)
  {
    if Greets(username) then
      var r := GreetingPrefix + Show(username) + GreetingSuffix + message;
      assert r[|r| - |message|..] == message;
      r
    else message
  }

  /** `f"{hour:02d}:00"`: the hour, padded with a zero to two digits, then `":00"`. */
  function HourKey(hour: nat): (r: string)
    ensures EndsWith(r, ":00")
  {
    var r := (if hour < 10 then "0" + NatToString(hour) else NatToString(hour)) + ":00";
    assert r[|r| - 3..] == ":00";
    r
  }

  /** An hour of the day gives five characters: its two decimal digits, then `":00"`. */
  lemma HourKeyDigits(hour: nat)
    requires hour < 100
    ensures var r := HourKey(hour);
            |r| == 5 && IsDigit(r[0]) && IsDigit(r[1]) && r[2..] == ":00"
            && (r[0] as int - '0' as int) * 10 + (r[1] as int - '0' as int) == hour
  {
    var digits := NatToString(hour);
    DigitsValueOfNatToString(hour);
    if hour >= 10 {
      assert digits[..1] == NatToString(hour / 10);
      assert digits[..1][..0] == [];
    }
  }

  // ------------------------------------------------------------------ the batch

  /** What `send_scheduled_notifications` returns. */
  datatype BatchResult =
    | NoUsers
    | Completed(usersNotified: nat, failedNotifications: nat, totalUsers: nat, time: string, weekday: string)
    | Failed(error: string)

  const NoUsersMessage: string := "No users scheduled for notifications"
  /** `str(KeyError('telegram_id'))`, the error of a user row without a Telegram id. */
  const MissingTelegramId: string := "'telegram_id'"

  /** One send: the chat id and the text. */
  datatype Send = Send(telegramId: Value, text: string)

  /** The send to one user with the message drawn for that user. */
  function SendFor(user: Row, message: string): Send
    requires "telegram_id" in user
  {
    Send(user["telegram_id"], PersonalMessage(Get(user, "username", UnknownUser), message))
  }

  /** The number of users, up to the first one without a Telegram id. */
  function Reached(users: seq<Row>): (n: nat)
    ensures n <= |users|
    ensures forall i :: 0 <= i < n ==> "telegram_id" in users[i]
    ensures n < |users| ==> "telegram_id" !in users[n]
    decreases |users|
  {
    if users == [] || "telegram_id" !in users[0] then 0
    else
      var n := Reached(users[1..]);
      assert forall i :: 1 <= i < |users| ==> users[i] == users[1..][i - 1];
      1 + n
  }

  /** The sends made, in user order, before the batch ends or stops; the message for the
      user at position `i` is drawn from `messages` by `pick(i)`. */
  function Sends(users: seq<Row>, messages: seq<string>, pick: nat -> nat): (r: seq<Send>)
    requires messages != []
    ensures |r| == Reached(users)
  {
    seq(Reached(users), i requires 0 <= i < Reached(users) => SendFor(users[i], Choice(messages, pick(i))))
  }

  /** The number of the first `n` attempts that `delivered` reports as delivered. */
  function DeliveredCount(delivered: nat -> bool, n: nat): (r: nat)
    ensures r <= n
  {
    if n == 0 then 0 else DeliveredCount(delivered, n - 1) + (if delivered(n - 1) then 1 else 0)
  }

  /** The result of a batch: `fetched` is the user query's outcome, `hour` and `weekday` the
      clock's, and `delivered(i)` whether the i-th send went through. */
  function Batch(fetched: Result<seq<Row>>, hour: nat, weekday: string, delivered: nat -> bool): BatchResult {
    match fetched
    case Err(m) => Failed(m)
    case Ok(users) =>
      if users == [] then NoUsers
      else if Reached(users) < |users| then Failed(MissingTelegramId)
      else
        var n := DeliveredCount(delivered, |users|);
        Completed(n, |users| - n, |users|, HourKey(hour), weekday)
  }

  /** The sends a batch makes. */
  function BatchSends(fetched: Result<seq<Row>>, hour: nat, pick: nat -> nat): seq<Send> {
    if fetched.Err? then [] else Sends(fetched.value, MessagesFor(hour), pick)
  }

  /** The loop's state after the first `i` users: their sends, in order, and the counts. */
  ghost predicate Progress(users: seq<Row>, i: nat, messages: seq<string>, pick: nat -> nat, delivered: nat -> bool,
                           sent: seq<Send>, successful: nat, failed: nat)
    requires messages != []
  {
    i <= Reached(users) && sent == Sends(users, messages, pick)[..i]
    && successful == DeliveredCount(delivered, i) && failed == i - successful
  }

  lemma SendStep(users: seq<Row>, i: nat, messages: seq<string>, pick: nat -> nat, sent: seq<Send>)
    requires messages != []
    requires i < Reached(users) && sent == Sends(users, messages, pick)[..i]
    ensures sent + [SendFor(users[i], Choice(messages, pick(i)))] == Sends(users, messages, pick)[..i + 1]
  {
    var all := Sends(users, messages, pick);
    assert all[i] == SendFor(users[i], Choice(messages, pick(i)));
    PrefixStep(all, i);
  }

  lemma PrefixStep(all: seq<Send>, i: nat)
    requires i < |all|
    ensures all[..i + 1] == all[..i] + [all[i]]
  {
  }

  lemma SendsDone(users: seq<Row>, i: nat, messages: seq<string>, pick: nat -> nat)
    requires messages != []
    requires i == Reached(users)
    ensures Sends(users, messages, pick)[..i] == Sends(users, messages, pick)
  {
  }

  /** `send_scheduled_notifications`. The query, the clock, the random draws and the send
      outcomes are its parameters; a send that raises is a `false` outcome, as
      `send_notification_to_user` reports it. */
  method SendScheduledNotifications(fetched: Result<seq<Row>>, hour: nat, weekday: string,
                                    pick: nat -> nat, delivered: nat -> bool)
    returns (result: BatchResult, sent: seq<Send>)
    ensures result == Batch(fetched, hour, weekday, delivered)
    ensures sent == BatchSends(fetched, hour, pick)
  {
    var currentHour := HourKey(hour);
    if fetched.Err? {
      return Failed(fetched.message), [];
    }
    var users := fetched.value;
    if users == [] {
      return NoUsers, [];
    }
    ghost var messages := MessagesFor(hour);
    var successful: nat := 0;
    var failed: nat := 0;
    sent := [];
    var i := 0;
    while i < |users|
      invariant Progress(users, i, messages, pick, delivered, sent, successful, failed)
    {
      var user := users[i];
      if "telegram_id" !in user {
        SendsDone(users, i, messages, pick);
        return Failed(MissingTelegramId), sent;
      }
      var message := PersonalMessage(Get(user, "username", UnknownUser), MotivationalMessage(hour, pick(i)));
      SendStep(users, i, messages, pick, sent);
      sent := sent + [Send(user["telegram_id"], message)];
      if delivered(i) {
        successful := successful + 1;
      } else {
        failed := failed + 1;
      }
      i := i + 1;
    }
    SendsDone(users, i, messages, pick);
    result := Completed(successful, failed, |users|, currentHour, weekday);
  }

  // ------------------------------------------------------------------ properties of a batch

  /** A completed batch accounts for every user: notified plus failed is the total, which is
      the number of users fetched. */
  lemma CompletedCounts(fetched: Result<seq<Row>>, hour: nat, weekday: string, delivered: nat -> bool)
    requires Batch(fetched, hour, weekday, delivered).Completed?
    ensures var b := Batch(fetched, hour, weekday, delivered);
            fetched.Ok? && b.usersNotified + b.failedNotifications == b.totalUsers == |fetched.value|
            && b.time == HourKey(hour) && b.weekday == weekday
  {
  }

  /** When every user has a Telegram id, each user is sent exactly one message, in list
      order, to the user's Telegram id, ending with the message drawn for that user. */
  lemma OneSendPerUser(users: seq<Row>, messages: seq<string>, pick: nat -> nat)
    requires messages != [] && forall i :: 0 <= i < |users| ==> "telegram_id" in users[i]
    ensures var s := Sends(users, messages, pick);
            |s| == |users|
            && forall i :: 0 <= i < |s| ==>
                 s[i].telegramId == users[i]["telegram_id"]
                 && EndsWith(s[i].text, Choice(messages, pick(i)))
  {
    var s := Sends(users, messages, pick);
    forall i | 0 <= i < |s|
      ensures s[i].telegramId == users[i]["telegram_id"] && EndsWith(s[i].text, Choice(messages, pick(i)))
    {
      assert s[i] == SendFor(users[i], Choice(messages, pick(i)));
    }
  }

  /** An empty user list gives the `"success"` result and sends nothing. */
  lemma EmptyBatch(hour: nat, weekday: string, pick: nat -> nat, delivered: nat -> bool)
    ensures Batch(Ok([]), hour, weekday, delivered) == NoUsers
    ensures BatchSends(Ok([]), hour, pick) == []
  {
  }

  /** A user row without a Telegram id ends the batch with the `KeyError`; the users before
      it have been sent their messages. */
  lemma MissingIdStops(users: seq<Row>, k: nat, hour: nat, weekday: string, pick: nat -> nat,
                       delivered: nat -> bool)
    requires k < |users| && "telegram_id" !in users[k]
    requires forall i :: 0 <= i < k ==> "telegram_id" in users[i]
    ensures Batch(Ok(users), hour, weekday, delivered) == Failed(MissingTelegramId)
    ensures BatchSends(Ok(users), hour, pick) == Sends(users[..k], MessagesFor(hour), pick)
  {
    assert Reached(users) == k;
  }
}
