// The booking dialogue and the help dialogue of bot/commands/commands.py: the date and
// time-slot keyboards, the callback data they carry and how the handlers decode it, and the
// help state that `/help` sets and the next message clears.

module Commands {
  import opened Common
  import opened Values
  import SupabaseClient

  /** An inline button that sends callback data back to the bot. */
  datatype CallbackButton = CallbackButton(text: string, data: string)

  /** An inline keyboard: rows of buttons. */
  type Keyboard = seq<seq<CallbackButton>>

  const DatePrefix: string := "date_"
  const SlotPrefix: string := "slot_"
  const ChooseDate: string := "Выберите дату сессии:"
  const TimeSlots: seq<string> := ["10:00", "14:00", "16:00"]
  const BookingError: string := "Произошла ошибка при бронировании."
  const UserNotFound: string := "Ошибка: пользователь не найден."

  // ------------------------------------------------------------------ /booking

  function DateButton(date: string): CallbackButton {
    CallbackButton("📅 " + date, DatePrefix + date)
  }

  /** `schedule_command`'s keyboard: one row per day from tomorrow to a week ahead;
      `dayAfter(x)` is the clock's date `x` days ahead, as `%Y-%m-%d`. */
  function BookingKeyboard(dayAfter: nat -> string): (r: Keyboard)
    ensures |r| == 7
    ensures forall i :: 0 <= i < 7 ==> r[i] == [DateButton(dayAfter(i + 1))]
  {
    seq(7, i requires 0 <= i < 7 => [DateButton(dayAfter(i + 1))])
  }

  // ------------------------------------------------------------------ date selection

  /** The date handler fires on callback data starting with `date_`, the slot handler on
      data starting with `slot_`. */
  predicate IsDateData(data: string) {
    DatePrefix <= data
  }

  predicate IsSlotData(data: string) {
    SlotPrefix <= data
  }

  /** No callback data fires both handlers. */
  lemma HandlersDisjoint(data: string)
    ensures !(IsDateData(data) && IsSlotData(data))
  {
    assert DatePrefix[0] == 'd' && SlotPrefix[0] == 's';
  }

  /** `callback_query.data.replace('date_', '')`. */
  function SelectedDate(data: string): string {
    ReplaceAll(data, DatePrefix, "")
  }

  /** A date button's data decodes to its date when the date does not itself hold `date_`. */
  lemma DateRoundTrip(date: string)
    requires !Contains(date, DatePrefix)
    ensures IsDateData(DateButton(date).data)
    ensures SelectedDate(DateButton(date).data) == date
  {
    var data := DatePrefix + date;
    assert DatePrefix <= data;
    assert data[|DatePrefix|..] == date;
    ReplaceAllAbsent(date, DatePrefix, "");
  }

  function SlotButton(date: string, slot: string): CallbackButton {
    CallbackButton("🕐 " + slot, SlotPrefix + date + "_" + slot)
  }

  /** `process_date_selection`'s reply: the prompt for the selected date and one row per
      time slot. */
  datatype DateReply = DateReply(text: string, keyboard: Keyboard)

  function DateSelection(data: string): (r: DateReply)
    ensures |r.keyboard| == |TimeSlots|
    ensures forall i :: 0 <= i < |TimeSlots| ==> r.keyboard[i] == [SlotButton(SelectedDate(data), TimeSlots[i])]
    ensures r.text == "Дата: " + SelectedDate(data) + "\nВыберите удобное время:"
  {
    var date := SelectedDate(data);
    DateReply("Дата: " + date + "\nВыберите удобное время:",
              seq(|TimeSlots|, i requires 0 <= i < |TimeSlots| => [SlotButton(date, TimeSlots[i])]))
  }

  // ------------------------------------------------------------------ slot selection

  /** `_, date, time = data.split('_', 2)`: the date and the time, or None when the data
      has fewer than three pieces (the unpacking raises). */
  function ParseSlot(data: string): (r: Option<(string, string)>)
    ensures r.Some? <==> |SplitMax(data, '_', 2)| == 3
    ensures r.Some? ==> '_' !in r.value.0
  {
    var parts := SplitMax(data, '_', 2);
    if |parts| == 3 then Some((parts[1], parts[2])) else None
  }

  /** The data of a slot button decodes to its date and slot when the date holds no `_`
      (the slot may hold any). */
  lemma SlotRoundTrip(date: string, slot: string)
    requires '_' !in date
    ensures IsSlotData(SlotButton(date, slot).data)
    ensures ParseSlot(SlotButton(date, slot).data) == Some((date, slot))
  {
    var rest := date + "_" + slot;
    var data := SlotPrefix + date + "_" + slot;
    assert data == "slot" + ['_'] + rest;
    assert SlotPrefix <= data;
    SplitFirst("slot", rest, 2);
    SplitFirst(date, slot, 1);
    assert SplitMax(slot, '_', 0) == [slot];
  }

  /** Splitting at the first underscore: the piece before it, then the pieces of the rest. */
  lemma SplitFirst(a: string, b: string, maxsplit: nat)
    requires '_' !in a && maxsplit > 0
    ensures SplitMax(a + ['_'] + b, '_', maxsplit) == [a] + SplitMax(b, '_', maxsplit - 1)
  {
    var s := a + ['_'] + b;
    IndexOfFirst(a, '_', b);
    assert s[..|a|] == a;
    assert s[|a| + 1..] == b;
  }

  /** The data splits into three pieces exactly when it holds two underscores. */
  lemma ThreePiecesIffTwoUnderscores(data: string)
    ensures |SplitMax(data, '_', 2)| == 3 <==>
            exists i, j :: 0 <= i < j < |data| && data[i] == '_' && data[j] == '_'
  {
    match IndexOf(data, '_')
    case None =>
      assert forall i :: 0 <= i < |data| ==> data[i] != '_';
    case Some(i) =>
      var rest := data[i + 1..];
      assert forall k :: 0 <= k < i ==> data[k] != '_' by {
        forall k | 0 <= k < i ensures data[k] != '_' {
          assert data[k] == data[..i][k];
        }
      }
      match IndexOf(rest, '_')
      case None =>
        forall a, b | 0 <= a < b < |data| && data[a] == '_' ensures data[b] != '_' {
          assert a >= i;
          assert data[b] == rest[b - i - 1];
        }
      case Some(k) =>
        assert data[i + 1 + k] == '_';
  }

  /** The confirmation of a booked session. */
  function Confirmation(date: string, time: string): string {
    "✅ Ваша сессия на " + date + " в " + time + " подтверждена!\n\nВ назначенное время мы Вас ждем."
  }

  /** `if user:` after `get_user_by_telegram_id`: a row was found and it is not empty. */
  predicate UserFound(users: SupabaseClient.Query, telegramId: int) {
    var user := SupabaseClient.GetUserByTelegramId(users, telegramId);
    user.Some? && user.value != map[]
  }

  /** `process_slot_selection`'s reply: the confirmation when the data splits into a date and
      a time and the user is found, the user error when not, and the booking error when the
      data does not split. */
  function SlotReply(data: string, users: SupabaseClient.Query, telegramId: int): (r: string)
    ensures ParseSlot(data).None? ==> r == BookingError
    ensures ParseSlot(data).Some? && UserFound(users, telegramId) ==>
              r == Confirmation(ParseSlot(data).value.0, ParseSlot(data).value.1)
    ensures ParseSlot(data).Some? && !UserFound(users, telegramId) ==> r == UserNotFound
  {
    match ParseSlot(data)
    case None => BookingError
    case Some((date, time)) =>
      if UserFound(users, telegramId) then Confirmation(date, time) else UserNotFound
  }

  /** A slot chosen from the keyboard of a date is confirmed with that date and slot for a
      registered user. */
  lemma SlotConfirmed(date: string, slot: string, users: seq<Row>, telegramId: int)
    requires '_' !in date
    requires SupabaseClient.FirstWithTelegramId(users, telegramId).Some?
    ensures SlotReply(SlotButton(date, slot).data, SupabaseClient.Rows(users), telegramId)
            == Confirmation(date, slot)
  {
    SlotRoundTrip(date, slot);
    var user := SupabaseClient.FirstWithTelegramId(users, telegramId).value;
    assert SupabaseClient.HasTelegramId(user, telegramId) by {
      var i :| SupabaseClient.FirstMatchAt(users, telegramId, i) && users[i] == user;
    }
    assert "telegram_id" in user;
  }

  /** Data with fewer than two underscores gets the booking error. */
  lemma FewUnderscoresFail(data: string, users: SupabaseClient.Query, telegramId: int)
    requires forall i, j :: 0 <= i < j < |data| ==> !(data[i] == '_' && data[j] == '_')
    ensures SlotReply(data, users, telegramId) == BookingError
  {
    ThreePiecesIffTwoUnderscores(data);
  }

  // ------------------------------------------------------------------ /videos

  datatype WebAppButton = WebAppButton(text: string, url: string)

  /** `list_videos`: the prompt and a single web-app button that opens `<WEBAPP_URL>/videos`. */
  function VideosReply(webappUrl: string): (r: (string, seq<seq<WebAppButton>>))
    ensures |r.1| == 1 && |r.1[0]| == 1 && r.1[0][0].url == webappUrl + "/videos"
  {
    ("🎥 Нажмите кнопку ниже, чтобы открыть видео материалы:",
     [[WebAppButton("🎥 Открыть видео", webappUrl + "/videos")]])
  }

  // ------------------------------------------------------------------ the help dialogue

  /** The FSM states of `UserState`, and no state. */
  datatype UserState = NoState | Help | WaitingForQuestion

  const HelpPrompt: string := "Пожалуйста, напиши Ваш вопрос в свободной форме и <b>одним сообщением</b>!"
  const Accepted: string := "Ваше сообщение принято. Ожидайте ответа в течении суток. Спасибо, что вы с нами."

  /** A message for the administrator: the chat id and the text. */
  datatype Forward = Forward(chatId: int, text: string)

  /** What a handler does: its reply, the state it leaves, and the forward it sends, if any. */
  datatype Step = Step(reply: string, next: UserState, forward: Option<Forward>)

  /** `command_request`: `/help` answers with the prompt and sets the help state. */
  function HelpCommand(state: UserState): (r: Step)
    ensures r.next == Help && r.reply == HelpPrompt && r.forward.None?
  {
    Step(HelpPrompt, Help, None)
  }

  /** The administrator's copy: a Markdown mention of the sender, then the text;
      `message.text` is `None` for a message without text. */
  function AdminText(fullName: string, userId: int, text: Option<string>): (r: string)
    ensures text.Some? ==> EndsWith(r, text.value)
  {
    var body := if text.Some? then text.value else "None";
    var r := "Пользователь [" + fullName + "](tg://user?id=" + IntToString(userId) + ") спрашивает:\n\n" + body;
    assert r[|r| - |body|..] == body;
    r
  }

  /** `help`: a message in the help state is acknowledged, the state is cleared, and the
      message goes to the administrator when `TELEGRAM_ADMIN_ID` is set (non-zero). */
  function HelpMessage(adminId: int, fullName: string, userId: int, text: Option<string>): (r: Step)
    ensures r.reply == Accepted && r.next == NoState
    ensures r.forward.Some? <==> adminId != 0
    ensures r.forward.Some? ==> r.forward.value.chatId == adminId
                                && (text.Some? ==> EndsWith(r.forward.value.text, text.value))
  {
    Step(Accepted, NoState,
         if adminId != 0 then Some(Forward(adminId, AdminText(fullName, userId, text))) else None)
  }

  /** `/help` then a message: from any state, the dialogue ends with no state, and the
      message reaches the administrator exactly when one is configured. */
  lemma HelpDialogue(state: UserState, adminId: int, fullName: string, userId: int, text: string)
    ensures var first := HelpCommand(state);
            var second := HelpMessage(adminId, fullName, userId, Some(text));
            first.next == Help && second.next == NoState
            && (second.forward.Some? <==> adminId != 0)
            && (second.forward.Some? ==> EndsWith(second.forward.value.text, text))
  {
  }
}
