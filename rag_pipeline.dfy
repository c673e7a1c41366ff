/** The retrieval-augmented answer pipeline: search the user's content, join the retrieved
    passages into one context, fill the prompt template and ask the language model. */
module RagPipeline {
  import opened Common
  import opened Values
  import SupabaseClient

  /** What separates two retrieved passages in the context. */
  const Separator: string := "\n\n---\n\n"

  const MissingText: string := "KeyError: 'content_text'"
  const NotAString: string := "TypeError: sequence item: expected str instance"

  const ContextField: string := "{context}"
  const QuestionField: string := "{question}"

  /** The dictionary `search_and_answer` returns. */
  datatype AnswerResult = AnswerResult(answer: string, sources: seq<Row>, contextUsed: nat, totalAvailable: nat)

  // ------------------------------------------------------------------ prompt template

  function Prepend(p: string, o: Option<string>): (r: Option<string>)
    ensures r.Some? <==> o.Some?
  {
    if o.Some? then Some(p + o.value) else None
  }

  predicate BraceFree(s: string) {
    forall i :: 0 <= i < |s| ==> s[i] != '{' && s[i] != '}'
  }

  /** `template.format(context=..., question=...)` with Python's brace rules: the two named
      fields are substituted, a doubled brace stands for one brace, and any other brace is a
      formatting error (`None`). */
  function FormatPrompt(t: string, context: string, question: string): (r: Option<string>)
    decreases |t|
  {
    if t == [] then Some("")
    else if ContextField <= t then Prepend(context, FormatPrompt(t[|ContextField|..], context, question))
    else if QuestionField <= t then Prepend(question, FormatPrompt(t[|QuestionField|..], context, question))
    else if "{{" <= t then Prepend("{", FormatPrompt(t[2..], context, question))
    else if "}}" <= t then Prepend("}", FormatPrompt(t[2..], context, question))
    else if t[0] == '{' || t[0] == '}' then None
    else Prepend([t[0]], FormatPrompt(t[1..], context, question))
  }

  /** Text without braces is copied into the prompt unchanged. */
  lemma {:induction false} FormatLiteral(a: string, rest: string, context: string, question: string)
    requires BraceFree(a)
    ensures FormatPrompt(a + rest, context, question) == Prepend(a, FormatPrompt(rest, context, question))
    decreases |a|
  {
    var x := FormatPrompt(rest, context, question);
    if a != [] {
      var t := a + rest;
      assert t[0] == a[0];
      assert !(ContextField <= t) && !(QuestionField <= t) && !("{{" <= t) && !("}}" <= t) by {
        assert t[0] != '{' && t[0] != '}';
      }
      assert FormatPrompt(t, context, question) == Prepend([a[0]], FormatPrompt(t[1..], context, question));
      assert t[1..] == a[1..] + rest;
      FormatLiteral(a[1..], rest, context, question);
      assert Prepend([a[0]], Prepend(a[1..], x)) == Prepend(a, x) by {
        if x.Some? {
          assert [a[0]] + (a[1..] + x.value) == a + x.value;
        }
      }
    } else {
      assert a + rest == rest;
      assert Prepend(a, x) == x by {
        if x.Some? {
          assert a + x.value == x.value;
        }
      }
    }
  }

  lemma FormatContextField(rest: string, context: string, question: string)
    ensures FormatPrompt(ContextField + rest, context, question) == Prepend(context, FormatPrompt(rest, context, question))
  {
    var t := ContextField + rest;
    assert ContextField <= t && t[|ContextField|..] == rest;
  }

  lemma FormatQuestionField(rest: string, context: string, question: string)
    ensures FormatPrompt(QuestionField + rest, context, question) == Prepend(question, FormatPrompt(rest, context, question))
  {
    var t := QuestionField + rest;
    assert !(ContextField <= t) by { assert t[1] == 'q'; }
    assert QuestionField <= t && t[|QuestionField|..] == rest;
  }

  /** A template without fields or braces is the prompt as it stands. */
  lemma FormatBraceFree(c: string, context: string, question: string)
    requires BraceFree(c)
    ensures FormatPrompt(c, context, question) == Some(c)
  {
    FormatLiteral(c, "", context, question);
    assert c + "" == c;
  }

  lemma FormatQuestionTail(c: string, context: string, question: string)
    requires BraceFree(c)
    ensures FormatPrompt(QuestionField + c, context, question) == Some(question + c)
  {
    FormatBraceFree(c, context, question);
    FormatQuestionField(c, context, question);
  }

  lemma FormatMiddle(b: string, c: string, context: string, question: string)
    requires BraceFree(b) && BraceFree(c)
    ensures FormatPrompt(b + QuestionField + c, context, question) == Some(b + question + c)
  {
    FormatQuestionTail(c, context, question);
    FormatLiteral(b, QuestionField + c, context, question);
    assert b + QuestionField + c == b + (QuestionField + c);
    assert b + (question + c) == b + question + c;
  }

  lemma FormatContextTail(b: string, c: string, context: string, question: string)
    requires BraceFree(b) && BraceFree(c)
    ensures FormatPrompt(ContextField + b + QuestionField + c, context, question) == Some(context + b + question + c)
  {
    FormatMiddle(b, c, context, question);
    FormatContextField(b + QuestionField + c, context, question);
    assert ContextField + b + QuestionField + c == ContextField + (b + QuestionField + c);
    assert context + (b + question + c) == context + b + question + c;
  }

  /** A template with one context field and one question field, and no other braces, becomes
      the template's text with the context and the question put in their places. */
  lemma FormatFillsBothFields(a: string, b: string, c: string, context: string, question: string)
    requires BraceFree(a) && BraceFree(b) && BraceFree(c)
    ensures FormatPrompt(a + ContextField + b + QuestionField + c, context, question)
         == Some(a + context + b + question + c)
  {
    FormatContextTail(b, c, context, question);
    FormatLiteral(a, ContextField + b + QuestionField + c, context, question);
    assert a + ContextField + b + QuestionField + c == a + (ContextField + b + QuestionField + c);
    assert a + (context + b + question + c) == a + context + b + question + c;
  }

  // ------------------------------------------------------------------ context and sources

  /** `result['content_text']` exists and is a string, so it can be joined. */
  predicate IsText(result: Row) {
    "content_text" in result && result["content_text"].VStr?
  }

  predicate AllText(results: seq<Row>) {
    forall i :: 0 <= i < |results| ==> IsText(results[i])
  }

  function Texts(results: seq<Row>): (r: seq<string>)
    requires AllText(results)
    ensures |r| == |results|
    ensures forall i :: 0 <= i < |results| ==> results[i]["content_text"] == VStr(r[i])
  {
    seq(|results|, i requires 0 <= i < |results| => results[i]["content_text"].s)
  }

  /** The context handed to the model: every retrieved passage, in retrieval order. */
  function Context(results: seq<Row>): (c: string)
    requires AllText(results)
    ensures results == [] ==> c == ""
    ensures |results| == 1 ==> c == Texts(results)[0]
    ensures forall i :: 0 <= i < |results| ==> Contains(c, Texts(results)[i])
  {
    JoinContainsAll(Texts(results), Separator);
    Join(Texts(results), Separator)
  }

  /** The citation kept for one retrieved result: its type, title and file id, `None` where absent. */
  function SourceOf(result: Row): (s: Row)
    ensures s.Keys == {"type", "title", "file_id"}
    ensures forall k :: k in s ==> (k in result ==> s[k] == result[k]) && (k !in result ==> s[k] == VNone)
  {
    map["type" := Get(result, "type", VNone), "title" := Get(result, "title", VNone),
        "file_id" := Get(result, "file_id", VNone)]
  }

  /** The prompt for `question` over `results`, or `None` when the results cannot be joined or
      the template cannot be filled. */
  function Prompt(question: string, results: seq<Row>, template: string): Option<string> {
    if AllText(results) then FormatPrompt(template, Context(results), question) else None
  }

  /** What `search_and_answer` produces once the search results are known; `llm` stands for
      the chat model, `None` for a failed call. */
  function Answer(question: string, results: seq<Row>, template: string, llm: string -> Option<string>)
    : (r: Result<AnswerResult>)
    ensures r.Ok? <==> Prompt(question, results, template).Some? && llm(Prompt(question, results, template).value).Some?
    ensures r.Ok? ==> r.value.contextUsed == r.value.totalAvailable == |results|
    ensures r.Ok? ==> (|r.value.sources| == |results| &&
                       forall i :: 0 <= i < |results| ==> r.value.sources[i] == SourceOf(results[i]))
    ensures r.Ok? ==> r.value.answer == Strip(llm(Prompt(question, results, template).value).value, Whitespace)
    ensures r.Ok? ==> var a := r.value.answer; a == [] || (a[0] !in Whitespace && a[|a| - 1] !in Whitespace)
  {
    if exists i :: 0 <= i < |results| && "content_text" !in results[i] then Err(MissingText)
    else if !AllText(results) then Err(NotAString)
    else match FormatPrompt(template, Context(results), question)
      case None => Err("the prompt template cannot be formatted")
      case Some(prompt) =>
        match llm(prompt)
        case None => Err("the language model call failed")
        case Some(out) =>
          Ok(AnswerResult(Strip(out, Whitespace), seq(|results|, i requires 0 <= i < |results| => SourceOf(results[i])),
                          |results|, |results|))
  }

  /** The answer is the model's reply with only surrounding whitespace removed: it is the
      stretch `reply[lo..hi]`, and everything cut off before or after it is whitespace. */
  lemma AnswerIsTrimmedReply(question: string, results: seq<Row>, template: string, llm: string -> Option<string>)
    returns (lo: nat, hi: nat)
    requires Answer(question, results, template, llm).Ok?
    ensures var reply := llm(Prompt(question, results, template).value).value;
            && lo <= hi <= |reply|
            && Answer(question, results, template, llm).value.answer == reply[lo..hi]
            && (forall i :: 0 <= i < lo ==> reply[i] in Whitespace)
            && (forall i :: hi <= i < |reply| ==> reply[i] in Whitespace)
  {
    var reply := llm(Prompt(question, results, template).value).value;
    lo, hi := StripIsInfix(reply, Whitespace);
  }

  /** Every retrieved passage reaches the model: with a template holding the context field
      after brace-free text, each passage occurs in the prompt. */
  lemma PromptCarriesEveryPassage(question: string, results: seq<Row>, a: string, b: string, i: nat)
    requires AllText(results) && BraceFree(a) && i < |results|
    requires FormatPrompt(b, Context(results), question).Some?
    ensures Prompt(question, results, a + ContextField + b).Some?
    ensures Contains(Prompt(question, results, a + ContextField + b).value, Texts(results)[i])
  {
    var ctx := Context(results);
    var rest := FormatPrompt(b, ctx, question).value;
    FormatContextField(b, ctx, question);
    FormatLiteral(a, ContextField + b, ctx, question);
    assert a + ContextField + b == a + (ContextField + b);
    assert Prompt(question, results, a + ContextField + b) == Some(a + (ctx + rest));
    ContainsBefore(ctx, rest, Texts(results)[i]);
    ContainsAfter(a, ctx + rest, Texts(results)[i]);
  }

  /** With nothing retrieved the model still gets asked, over an empty context, and no source
      is cited. */
  lemma NothingRetrieved(question: string, template: string, llm: string -> Option<string>)
    requires FormatPrompt(template, "", question).Some? && llm(FormatPrompt(template, "", question).value).Some?
    ensures Answer(question, [], template, llm).Ok?
    ensures Answer(question, [], template, llm).value.sources == []
    ensures Answer(question, [], template, llm).value.contextUsed == 0
  {
    assert Context([]) == "";
  }

  // ------------------------------------------------------------------ the pipeline

  /** The loop of `search_and_answer`: one context part and one source per result, in order;
      a result without `content_text` raises. */
  method CollectContext(results: seq<Row>) returns (r: Result<(seq<Value>, seq<Row>)>)
    ensures r.Ok? <==> forall i :: 0 <= i < |results| ==> "content_text" in results[i]
    ensures r.Err? ==> r.message == MissingText
    ensures r.Ok? ==> |r.value.0| == |results| && forall i :: 0 <= i < |results| ==> r.value.0[i] == results[i]["content_text"]
    ensures r.Ok? ==> |r.value.1| == |results| && forall i :: 0 <= i < |results| ==> r.value.1[i] == SourceOf(results[i])
  {
    var parts: seq<Value> := [];
    var sources: seq<Row> := [];
    var i := 0;
    while i < |results|
      invariant 0 <= i <= |results|
      invariant forall j :: 0 <= j < i ==> "content_text" in results[j]
      invariant |parts| == i && forall j :: 0 <= j < i ==> parts[j] == results[j]["content_text"]
      invariant |sources| == i && forall j :: 0 <= j < i ==> sources[j] == SourceOf(results[j])
    {
      if "content_text" !in results[i] {
        return Err(MissingText);
      }
      parts := parts + [results[i]["content_text"]];
      sources := sources + [map["type" := Get(results[i], "type", VNone), "title" := Get(results[i], "title", VNone),
                                "file_id" := Get(results[i], "file_id", VNone)]];
      i := i + 1;
    }
    r := Ok((parts, sources));
  }

  /** `search_and_answer`: embed the question (a failed call ends the request), search the
      user's content, build the context and ask the model. */
  method SearchAndAnswer(userId: Value, question: string, documents: SupabaseClient.Query,
                         videos: SupabaseClient.Query, searchLimit: nat, template: string,
                         embed: string -> Option<seq<real>>, llm: string -> Option<string>)
    returns (r: Result<AnswerResult>)
    ensures embed(question).None? ==> r.Err?
    ensures embed(question).Some? ==>
      r == Answer(question, SupabaseClient.SearchResults(userId, documents, videos, searchLimit), template, llm)
  {
    var embedding := embed(question);
    if embedding.None? {
      return Err("the embedding call failed");
    }
    var results := SupabaseClient.SearchContent(userId, documents, videos, searchLimit);
    var collected := CollectContext(results);
    if collected.Err? {
      assert exists i :: 0 <= i < |results| && "content_text" !in results[i];
      return Err(MissingText);
    }
    r := AnswerFrom(question, results, template, llm, collected.value.0, collected.value.1);
  }

  /** The rest of `search_and_answer` once the context parts and sources are collected:
      join the parts (a part that is not a string raises), fill the template, call the model
      and strip its reply. */
  method AnswerFrom(question: string, results: seq<Row>, template: string, llm: string -> Option<string>,
                    parts: seq<Value>, sources: seq<Row>)
    returns (r: Result<AnswerResult>)
    requires |parts| == |results| && forall i :: 0 <= i < |results| ==> "content_text" in results[i] && parts[i] == results[i]["content_text"]
    requires |sources| == |results| && forall i :: 0 <= i < |results| ==> sources[i] == SourceOf(results[i])
    ensures r == Answer(question, results, template, llm)
  {
    if exists j :: 0 <= j < |parts| && !parts[j].VStr? {
      return Err(NotAString);
    }
    var texts := seq(|parts|, j requires 0 <= j < |parts| => parts[j].s);
    assert texts == Texts(results);
    var context := Join(texts, Separator);
    var prompt := FormatPrompt(template, context, question);
    if prompt.None? {
      return Err("the prompt template cannot be formatted");
    }
    var response := llm(prompt.value);
    if response.None? {
      return Err("the language model call failed");
    }
    var answer := Strip(response.value, Whitespace);
    assert sources == seq(|results|, i requires 0 <= i < |results| => SourceOf(results[i]));
    r := Ok(AnswerResult(answer, sources, |results|, |results|));
  }
}
