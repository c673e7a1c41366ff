/** The question handler: look the user up, run the answer pipeline and edit the "processing"
    message into the answer, its numbered sources and one web-app button per source. */
module Handlers {
  import opened Common
  import opened Values
  import SupabaseClient
  import RagPipeline

  /** An inline button opening the web app at `url`. */
  datatype Button = Button(text: string, url: string)

  type Keyboard = seq<seq<Button>>

  /** The final text of the processing message and its keyboard, if any. */
  datatype Edit = Edit(text: string, keyboard: Option<Keyboard>)

  /** What the handler does, in order: a message sent, the typing indicator, or the edit of
      the processing message. */
  datatype Action = Send(text: string) | Typing | EditProcessing(edit: Edit)

  /** The dictionary the handler receives from the pipeline: its `error`, `answer` and
      `sources` entries. */
  datatype PipelineReply = PipelineReply(error: Value, answer: string, sources: seq<Row>)

  const AskForText: string := "Пожалуйста, отправьте текстовое сообщение с вашим запросом."
  const Processing: string := "🤔 Обрабатываю ваш вопрос..."
  const UserNotFound: string := "Ошибка: пользователь не найден. Попробуйте команду /start"
  const ErrorPrefix: string := "Произошла ошибка: "
  const GenericError: string :=
    "Произошла ошибка при обработке вашего вопроса. Попробуйте еще раз или обратитесь к администратору."
  const SourcesHeader: string := "\n\n📚 Источники:"
  const DocumentEmoji: string := "📄"
  const VideoEmoji: string := "🎥"
  const DocumentPath: string := "/document/"

  /** At most this many sources are shown. */
  const MaxSources: nat := 3

  /** A pipeline answer never carries an `error` entry. */
  function FromAnswer(a: RagPipeline.AnswerResult): PipelineReply {
    PipelineReply(VNone, a.answer, a.sources)
  }

  /** `source['type']` and `source['title']` can be read without a `KeyError`. */
  predicate Renderable(source: Row) {
    "type" in source && "title" in source
  }

  /** The emoji of a source (rendered only when it has a `type`). */
  function Emoji(source: Row): (e: string)
    ensures e == DocumentEmoji <==> Get(source, "type", VNone) == VStr("document")
    ensures e == VideoEmoji <==> Get(source, "type", VNone) != VStr("document")
  {
    if Get(source, "type", VNone) == VStr("document") then DocumentEmoji else VideoEmoji
  }

  /** The caption of a source (rendered only when it has a `title`). */
  function Label(source: Row): string {
    Emoji(source) + " " + Show(Get(source, "title", VNone))
  }

  /** The `i`-th line of the source list. */
  function Line(i: nat, source: Row): string {
    "\n" + NatToString(i) + ". " + Label(source)
  }

  /** The web-app address of a source: its `id`, or nothing, after the document path. */
  function DocumentUrl(webappUrl: string, source: Row): string {
    webappUrl + DocumentPath + Show(Get(source, "id", VStr("")))
  }

  function ButtonFor(source: Row, webappUrl: string): Button {
    Button(Label(source), DocumentUrl(webappUrl, source))
  }

  /** `sources[:3]`. */
  function Shown(sources: seq<Row>): (r: seq<Row>)
    ensures |r| == Min(MaxSources, |sources|) && r <= sources
  {
    if |sources| <= MaxSources then sources else sources[..MaxSources]
  }

  predicate AllRenderable(sources: seq<Row>) {
    forall i :: 0 <= i < |sources| ==> Renderable(sources[i])
  }

  /** The numbered lines, starting at 1, of the shown sources. */
  function Lines(shown: seq<Row>): (r: seq<string>)
    ensures |r| == |shown|
  {
    seq(|shown|, i requires 0 <= i < |shown| => Line(i + 1, shown[i]))
  }

  function Buttons(shown: seq<Row>, webappUrl: string): (r: Keyboard)
    ensures |r| == |shown|
  {
    seq(|shown|, i requires 0 <= i < |shown| => [ButtonFor(shown[i], webappUrl)])
  }

  /** What the processing message becomes for a pipeline reply: the error, the bare answer, or
      the answer with its source list and keyboard; a shown source without `type` or `title`
      raises, which ends in the generic error message. */
  function Rendered(reply: PipelineReply, webappUrl: string): (e: Edit)
    ensures Truthy(reply.error) ==> e == Edit(ErrorPrefix + Show(reply.error), None)
    ensures !Truthy(reply.error) && reply.sources == [] ==> e == Edit(reply.answer, None)
    ensures e.keyboard.Some? <==> !Truthy(reply.error) && reply.sources != [] && AllRenderable(Shown(reply.sources))
    ensures !Truthy(reply.error) && reply.sources != [] && !AllRenderable(Shown(reply.sources)) ==>
              e == Edit(GenericError, None)
    ensures e.keyboard.Some? ==>
      && 1 <= |e.keyboard.value| == Min(MaxSources, |reply.sources|)
      && (forall i :: 0 <= i < |e.keyboard.value| ==> |e.keyboard.value[i]| == 1)
      && e.text == reply.answer + SourcesHeader + Concat(Lines(Shown(reply.sources)))
  {
    if Truthy(reply.error) then Edit(ErrorPrefix + Show(reply.error), None)
    else if reply.sources == [] then Edit(reply.answer, None)
    else
      var shown := Shown(reply.sources);
      if !AllRenderable(shown) then Edit(GenericError, None)
      else Edit(reply.answer + SourcesHeader + Concat(Lines(shown)), Some(Buttons(shown, webappUrl)))
  }

  /** Line `i` of a rendered answer is numbered `i` and names the `i`-th source with its
      emoji, and button `i` carries the same label and that source's address. */
  lemma LineAndButtonAgree(reply: PipelineReply, webappUrl: string, i: nat)
    requires Rendered(reply, webappUrl).keyboard.Some? && i < |Rendered(reply, webappUrl).keyboard.value|
    ensures var shown := Shown(reply.sources);
            var button := Rendered(reply, webappUrl).keyboard.value[i][0];
            && Renderable(shown[i]) && shown[i] == reply.sources[i]
            && Lines(shown)[i] == "\n" + NatToString(i + 1) + ". " + button.text
            && button.text == Emoji(shown[i]) + " " + Show(shown[i]["title"])
            && (button.text[..|DocumentEmoji|] == DocumentEmoji <==> shown[i]["type"] == VStr("document"))
            && button.url == webappUrl + DocumentPath + Show(Get(reply.sources[i], "id", VStr("")))
  {
  }

  lemma LinesSnoc(shown: seq<Row>, source: Row)
    ensures Lines(shown + [source]) == Lines(shown) + [Line(|shown| + 1, source)]
  {
    assert forall j :: 0 <= j < |shown| ==> (shown + [source])[j] == shown[j];
  }

  lemma ButtonsSnoc(shown: seq<Row>, source: Row, webappUrl: string)
    ensures Buttons(shown + [source], webappUrl) == Buttons(shown, webappUrl) + [[ButtonFor(source, webappUrl)]]
  {
    assert forall j :: 0 <= j < |shown| ==> (shown + [source])[j] == shown[j];
  }

  lemma RenderableSnoc(shown: seq<Row>, source: Row)
    requires AllRenderable(shown) && Renderable(source)
    ensures AllRenderable(shown + [source])
  {
    assert forall j :: 0 <= j < |shown| ==> (shown + [source])[j] == shown[j];
  }

  /** After the sources `done` the loop has added their lines to `text` and their rows to
      `buttons`. */
  ghost predicate Progress(text0: string, done: seq<Row>, webappUrl: string,
                           text: string, lines: seq<string>, buttons: Keyboard) {
    AllRenderable(done) && lines == Lines(done) && buttons == Buttons(done, webappUrl)
    && text == text0 + Concat(lines)
  }

  lemma ProgressStep(text0: string, done: seq<Row>, source: Row, webappUrl: string,
                     text: string, lines: seq<string>, buttons: Keyboard)
    requires Progress(text0, done, webappUrl, text, lines, buttons) && Renderable(source)
    ensures Progress(text0, done + [source], webappUrl, text + Line(|done| + 1, source),
                     lines + [Line(|done| + 1, source)], buttons + [[ButtonFor(source, webappUrl)]])
  {
    var line := Line(|done| + 1, source);
    RenderableSnoc(done, source);
    LinesSnoc(done, source);
    ButtonsSnoc(done, source, webappUrl);
    AccumulateStep(text0, text, lines, line);
  }

  /** The source loop of `handle_user_question`, step by step: extend the text by one line
      and the keyboard by one button row per shown source; a source without `type` or
      `title` raises (`None`). */
  method AppendSources(text0: string, shown: seq<Row>, webappUrl: string)
    returns (text: string, keyboard: Option<Keyboard>)
    ensures keyboard.Some? <==> AllRenderable(shown)
    ensures keyboard.Some? ==> text == text0 + Concat(Lines(shown)) && keyboard.value == Buttons(shown, webappUrl)
  {
    text := text0;
    var buttons: Keyboard := [];
    ghost var lines: seq<string> := [];
    var i := 0;
    while i < |shown|
      invariant i <= |shown| && Progress(text0, shown[..i], webappUrl, text, lines, buttons)
    {
      var source := shown[i];
      if "type" !in source || "title" !in source {
        assert !Renderable(shown[i]);
        return text, None;
      }
      var line := Line(i + 1, source);
      ProgressStep(text0, shown[..i], source, webappUrl, text, lines, buttons);
      assert shown[..i + 1] == shown[..i] + [source];
      text := text + line;
      lines := lines + [line];
      buttons := buttons + [[ButtonFor(source, webappUrl)]];
      i := i + 1;
    }
    assert shown[..i] == shown;
    keyboard := Some(buttons);
  }

  /** The rendering part of `handle_user_question`. */
  method RenderAnswer(reply: PipelineReply, webappUrl: string) returns (e: Edit)
    ensures e == Rendered(reply, webappUrl)
  {
    if Truthy(reply.error) {
      return Edit(ErrorPrefix + Show(reply.error), None);
    }
    if reply.sources == [] {
      return Edit(reply.answer, None);
    }
    var text, keyboard := AppendSources(reply.answer + SourcesHeader, Shown(reply.sources), webappUrl);
    if keyboard.None? {
      return Edit(GenericError, None);
    }
    e := Edit(text, keyboard);
  }

  /** The edit `handle_user_question` ends with once a text message arrived. */
  function QuestionOutcome(text: string, telegramId: int, users: SupabaseClient.Query,
                           documents: SupabaseClient.Query, videos: SupabaseClient.Query, searchLimit: nat,
                           template: string, embed: string -> Option<seq<real>>,
                           llm: string -> Option<string>, webappUrl: string): Edit
  {
    var user := SupabaseClient.GetUserByTelegramId(users, telegramId);
    if user.None? || user.value == map[] then Edit(UserNotFound, None)
    else if "id" !in user.value || embed(text).None? then Edit(GenericError, None)
    else
      var results := SupabaseClient.SearchResults(user.value["id"], documents, videos, searchLimit);
      match RagPipeline.Answer(text, results, template, llm)
      case Err(_) => Edit(GenericError, None)
      case Ok(a) => Rendered(FromAnswer(a), webappUrl)
  }

  /** `handle_user_question`: an empty message gets a request for text; otherwise the
      processing message is sent, the typing indicator shown, and the processing message
      edited into the outcome. */
  method HandleUserQuestion(text: string, telegramId: int, users: SupabaseClient.Query,
                            documents: SupabaseClient.Query, videos: SupabaseClient.Query, searchLimit: nat,
                            template: string, embed: string -> Option<seq<real>>,
                            llm: string -> Option<string>, webappUrl: string)
    returns (actions: seq<Action>)
    ensures text == [] ==> actions == [Send(AskForText)]
    ensures text != [] ==> actions == [Send(Processing), Typing,
      EditProcessing(QuestionOutcome(text, telegramId, users, documents, videos, searchLimit, template, embed, llm, webappUrl))]
  {
    if text == [] {
      return [Send(AskForText)];
    }
    actions := [Send(Processing), Typing];
    var user := SupabaseClient.GetUserByTelegramId(users, telegramId);
    if user.None? || user.value == map[] {
      return actions + [EditProcessing(Edit(UserNotFound, None))];
    }
    if "id" !in user.value {
      return actions + [EditProcessing(Edit(GenericError, None))];
    }
    var result := RagPipeline.SearchAndAnswer(user.value["id"], text, documents, videos, searchLimit, template, embed, llm);
    if result.Err? {
      return actions + [EditProcessing(Edit(GenericError, None))];
    }
    var edit := RenderAnswer(FromAnswer(result.value), webappUrl);
    actions := actions + [EditProcessing(edit)];
  }

  /** A source built by the pipeline has a type and a title but no `id`. */
  predicate PipelineSource(source: Row) {
    source.Keys == {"type", "title", "file_id"}
  }

  /** Rendering a pipeline answer never takes the error branch; with results it always shows
      the source list, with one row per shown source, and every button opens the bare
      document path, since pipeline sources carry no `id`. */
  lemma PipelineAnswerRendering(a: RagPipeline.AnswerResult, webappUrl: string)
    requires forall i :: 0 <= i < |a.sources| ==> PipelineSource(a.sources[i])
    ensures a.sources == [] ==> Rendered(FromAnswer(a), webappUrl) == Edit(a.answer, None)
    ensures a.sources != [] ==> Rendered(FromAnswer(a), webappUrl).keyboard.Some?
    ensures var e := Rendered(FromAnswer(a), webappUrl);
            e.keyboard.Some? ==>
              |e.keyboard.value| == Min(MaxSources, |a.sources|)
              && forall i :: 0 <= i < |e.keyboard.value| ==> e.keyboard.value[i][0].url == webappUrl + DocumentPath
  {
    var shown := Shown(a.sources);
    assert forall i :: 0 <= i < |shown| ==> shown[i] == a.sources[i];
    var e := Rendered(FromAnswer(a), webappUrl);
    if e.keyboard.Some? {
      forall i | 0 <= i < |e.keyboard.value| ensures e.keyboard.value[i][0].url == webappUrl + DocumentPath {
        assert "id" !in shown[i];
        assert Show(VStr("")) == "";
        assert webappUrl + DocumentPath + "" == webappUrl + DocumentPath;
      }
    }
  }

  /** Every source the pipeline returns is a pipeline source. */
  lemma PipelineSourcesHaveNoId(question: string, results: seq<Row>, template: string, llm: string -> Option<string>)
    requires RagPipeline.Answer(question, results, template, llm).Ok?
    ensures var a := RagPipeline.Answer(question, results, template, llm).value;
            forall i :: 0 <= i < |a.sources| ==> PipelineSource(a.sources[i])
  {
  }
}
