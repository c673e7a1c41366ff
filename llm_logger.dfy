// The audit record of bot/services/llm_logger.py: each kind of request (chat, embedding,
// transcription) is shaped into one record for the `llm_requests` table, with the fields
// that do not apply to that kind set to None and missing metadata defaulted to `{}`.

module LlmLogger {
  import opened Common
  import opened Values

  /** The arguments every `log_*_request` method forwards unchanged. */
  datatype Shared = Shared(
    userId: Option<int>,
    sessionId: Option<string>,
    latencyMs: Option<int>,
    costUsd: Option<real>,
    success: bool,
    errorMessage: Option<string>,
    inputMetadata: Option<Row>,
    outputMetadata: Option<Row>,
    rawRequest: Option<Row>,
    rawResponse: Option<Row>)

  /** The keyword arguments `_log_request` hands to the database client's `log_llm_request`. */
  datatype LogRecord = LogRecord(
    requestType: string,
    model: string,
    userId: Option<int>,
    sessionId: Option<string>,
    inputText: Option<string>,
    inputMetadata: Row,
    outputText: Option<string>,
    outputMetadata: Row,
    tokensPrompt: Option<int>,
    tokensCompletion: Option<int>,
    tokensTotal: Option<int>,
    latencyMs: Option<int>,
    costUsd: Option<real>,
    success: bool,
    errorMessage: Option<string>,
    rawRequest: Option<Row>,
    rawResponse: Option<Row>)

  /** The one record handed to the database client by a log call, and what the call returns. */
  datatype Attempt = Attempt(record: LogRecord, logged: bool)

  /** `metadata or {}`: None and the empty dict both give `{}`. */
  function OrEmpty(metadata: Option<Row>): (r: Row)
    ensures metadata.None? ==> r == map[]
    ensures metadata.Some? ==> r == metadata.value
  {
    if metadata.None? || metadata.value == map[] then map[] else metadata.value
  }

  /** The record carries the shared arguments: unchanged, except the metadata defaults. */
  predicate Carries(record: LogRecord, shared: Shared) {
    && record.userId == shared.userId
    && record.sessionId == shared.sessionId
    && record.latencyMs == shared.latencyMs
    && record.costUsd == shared.costUsd
    && record.success == shared.success
    && record.errorMessage == shared.errorMessage
    && record.inputMetadata == OrEmpty(shared.inputMetadata)
    && record.outputMetadata == OrEmpty(shared.outputMetadata)
    && record.rawRequest == shared.rawRequest
    && record.rawResponse == shared.rawResponse
  }

  /** `_log_request`: one call to the database client with the record, whose outcome is
      `accept(record)`; a call that raises is a `false` outcome, and `_log_request` then
      returns False instead of raising. */
  function LogRequest(requestType: string, model: string, inputText: Option<string>, outputText: Option<string>,
                      tokensPrompt: Option<int>, tokensCompletion: Option<int>, tokensTotal: Option<int>,
                      shared: Shared, accept: LogRecord -> bool): (r: Attempt)
    ensures r.logged == accept(r.record)
    ensures Carries(r.record, shared)
    ensures r.record.requestType == requestType && r.record.model == model
    ensures r.record.inputText == inputText && r.record.outputText == outputText
    ensures r.record.tokensPrompt == tokensPrompt && r.record.tokensCompletion == tokensCompletion
    ensures r.record.tokensTotal == tokensTotal
  {
    var record := LogRecord(requestType, model, shared.userId, shared.sessionId, inputText,
                            OrEmpty(shared.inputMetadata), outputText, OrEmpty(shared.outputMetadata),
                            tokensPrompt, tokensCompletion, tokensTotal, shared.latencyMs, shared.costUsd,
                            shared.success, shared.errorMessage, shared.rawRequest, shared.rawResponse);
    Attempt(record, accept(record))
  }

  /** `log_chat_request`: every argument is forwarded, with request type `'chat'`. */
  function LogChat(model: string, inputText: string, outputText: string, tokensPrompt: Option<int>,
                   tokensCompletion: Option<int>, tokensTotal: Option<int>, shared: Shared,
                   accept: LogRecord -> bool): (r: Attempt)
    ensures r.logged == accept(r.record) && Carries(r.record, shared)
    ensures r.record.requestType == "chat" && r.record.model == model
    ensures r.record.inputText == Some(inputText) && r.record.outputText == Some(outputText)
    ensures r.record.tokensPrompt == tokensPrompt && r.record.tokensCompletion == tokensCompletion
    ensures r.record.tokensTotal == tokensTotal
  {
    LogRequest("chat", model, Some(inputText), Some(outputText), tokensPrompt, tokensCompletion, tokensTotal,
               shared, accept)
  }

  /** `log_embedding_request`: an embedding has no output text and no prompt or completion
      token counts; the total is kept. */
  function LogEmbedding(model: string, inputText: string, tokensTotal: Option<int>, shared: Shared,
                        accept: LogRecord -> bool): (r: Attempt)
    ensures r.logged == accept(r.record) && Carries(r.record, shared)
    ensures r.record.requestType == "embedding" && r.record.model == model
    ensures r.record.inputText == Some(inputText) && r.record.outputText == None
    ensures r.record.tokensPrompt == None && r.record.tokensCompletion == None
    ensures r.record.tokensTotal == tokensTotal
  {
    LogRequest("embedding", model, Some(inputText), None, None, None, tokensTotal, shared, accept)
  }

  /** `log_transcription_request`: the input is audio, so there is no input text, and there
      are no token counts. */
  function LogTranscription(model: string, outputText: string, shared: Shared, accept: LogRecord -> bool)
    : (r: Attempt)
    ensures r.logged == accept(r.record) && Carries(r.record, shared)
    ensures r.record.requestType == "transcription" && r.record.model == model
    ensures r.record.inputText == None && r.record.outputText == Some(outputText)
    ensures r.record.tokensPrompt == None && r.record.tokensCompletion == None && r.record.tokensTotal == None
  {
    LogRequest("transcription", model, None, Some(outputText), None, None, None, shared, accept)
  }

  /** Metadata that is given and not empty is forwarded unchanged; otherwise `{}` is. */
  lemma MetadataDefaults(metadata: Option<Row>)
    ensures OrEmpty(metadata) == (if metadata.Some? then metadata.value else map[])
    ensures OrEmpty(metadata) == map[] <==> metadata.None? || metadata.value == map[]
  {
  }

  /** The kinds are told apart by the record alone: which of the texts are present and
      whether token counts can be present follow from the request type. */
  lemma RecordShapeByKind(r: Attempt, model: string, text: string, tokensTotal: Option<int>, shared: Shared,
                          accept: LogRecord -> bool)
    requires r == LogEmbedding(model, text, tokensTotal, shared, accept)
             || r == LogTranscription(model, text, shared, accept)
    ensures r.record.requestType == "embedding" <==> r.record.inputText == Some(text)
    ensures r.record.requestType == "transcription" <==> r.record.outputText == Some(text)
    ensures r.record.tokensPrompt == None && r.record.tokensCompletion == None
  {
  }
}
