/** The earlier question-answering engine: retrieve documents, join their text into a context,
    collect the names of the videos they come from, ask the chain and append the closing
    invitation. */
module RagEngineOld {
  import opened Common
  import opened Values

  /** A retrieved document: its text and its metadata. */
  datatype Document = Document(pageContent: string, metadata: Row)

  /** The invitation appended to every answer. */
  const Invitation: string :=
    "\n\nЕсли у Вас остались вопросы, мы можем обсудить эту тему на сессии или в личном разговоре."
    + "\n\nЧтобы записаться на сессию, введи команду /booking, либо для того чтобы задать вопрос, используй команду /help."

  const PageSeparator: string := "\n\n"

  /** The document names a video: it has a truthy `video_name`. */
  predicate NamesVideo(doc: Document) {
    "video_name" in doc.metadata && Truthy(doc.metadata["video_name"])
  }

  /** A dict or a list cannot be put into a Python set. */
  predicate Unhashable(doc: Document) {
    NamesVideo(doc) && (doc.metadata["video_name"].VDict? || doc.metadata["video_name"].VList?)
  }

  /** The type Python names when an unhashable value is put into a set. */
  function UnhashableType(v: Value): string {
    if v.VList? then "list" else "dict"
  }

  /** The type named by the error: that of the first unhashable video name, since the set
      comprehension adds the names in document order. */
  function FirstUnhashableType(docs: seq<Document>): (r: string)
    requires exists i :: 0 <= i < |docs| && Unhashable(docs[i])
    ensures exists i :: 0 <= i < |docs| && Unhashable(docs[i])
                        && (forall j :: 0 <= j < i ==> !Unhashable(docs[j]))
                        && r == UnhashableType(docs[i].metadata["video_name"])
    decreases |docs|
  {
    if Unhashable(docs[0]) then UnhashableType(docs[0].metadata["video_name"])
    else
      var k :| 0 <= k < |docs| && Unhashable(docs[k]);
      assert docs[1..][k - 1] == docs[k];
      var r := FirstUnhashableType(docs[1..]);
      var i :| 0 <= i < |docs[1..]| && Unhashable(docs[1..][i])
               && (forall j :: 0 <= j < i ==> !Unhashable(docs[1..][j]))
               && r == UnhashableType(docs[1..][i].metadata["video_name"]);
      assert docs[i + 1] == docs[1..][i];
      assert forall j :: 1 <= j < i + 1 ==> docs[j] == docs[1..][j - 1];
      r
  }

  /** The set of video names of `format_docs`; `None` when a name is a dict or a list, which
      raises. */
  function Resources(docs: seq<Document>): (r: Option<set<Value>>)
    ensures r.None? <==> exists i :: 0 <= i < |docs| && Unhashable(docs[i])
    ensures r.Some? ==> forall v :: v in r.value <==>
      exists i :: 0 <= i < |docs| && NamesVideo(docs[i]) && docs[i].metadata["video_name"] == v
    decreases |docs|
  {
    if docs == [] then Some({})
    else
      var rest := Resources(docs[1..]);
      assert forall i :: 1 <= i < |docs| ==> docs[i] == docs[1..][i - 1];
      if Unhashable(docs[0]) then None
      else if rest.None? then
        assert exists i :: 0 <= i < |docs[1..]| && Unhashable(docs[1..][i]);
        None
      else if NamesVideo(docs[0]) then
        var r := rest.value + {docs[0].metadata["video_name"]};
        assert forall v :: v in r <==>
          exists i :: 0 <= i < |docs| && NamesVideo(docs[i]) && docs[i].metadata["video_name"] == v by {
          forall v | v in rest.value
            ensures exists i :: 0 <= i < |docs| && NamesVideo(docs[i]) && docs[i].metadata["video_name"] == v
          {
            var j :| 0 <= j < |docs[1..]| && NamesVideo(docs[1..][j]) && docs[1..][j].metadata["video_name"] == v;
            assert docs[j + 1] == docs[1..][j];
          }
        }
        Some(r)
      else
        assert forall v :: v in rest.value ==>
          exists i :: 0 <= i < |docs| && NamesVideo(docs[i]) && docs[i].metadata["video_name"] == v by {
          forall v | v in rest.value
            ensures exists i :: 0 <= i < |docs| && NamesVideo(docs[i]) && docs[i].metadata["video_name"] == v
          {
            var j :| 0 <= j < |docs[1..]| && NamesVideo(docs[1..][j]) && docs[1..][j].metadata["video_name"] == v;
            assert docs[j + 1] == docs[1..][j];
          }
        }
        rest
  }

  /** How the first document extends the names of the rest. */
  lemma ResourcesStep(docs: seq<Document>)
    requires docs != [] && Resources(docs).Some?
    ensures Resources(docs[1..]).Some?
    ensures NamesVideo(docs[0]) ==> Resources(docs).value == Resources(docs[1..]).value + {docs[0].metadata["video_name"]}
    ensures !NamesVideo(docs[0]) ==> Resources(docs).value == Resources(docs[1..]).value
  {
  }

  /** Each document contributes at most one video name. */
  lemma {:induction false} ResourcesAtMostOnePerDocument(docs: seq<Document>)
    requires Resources(docs).Some?
    ensures |Resources(docs).value| <= |docs|
    decreases |docs|
  {
    if docs != [] {
      ResourcesStep(docs);
      ResourcesAtMostOnePerDocument(docs[1..]);
      var rest := Resources(docs[1..]).value;
      if NamesVideo(docs[0]) {
        var name := docs[0].metadata["video_name"];
        assert |rest + {name}| <= |rest| + 1 by {
          if name in rest {
            assert rest + {name} == rest;
          }
        }
      }
    }
  }

  function Pages(docs: seq<Document>): (r: seq<string>)
    ensures |r| == |docs| && forall i :: 0 <= i < |docs| ==> r[i] == docs[i].pageContent
  {
    seq(|docs|, i requires 0 <= i < |docs| => docs[i].pageContent)
  }

  /** `format_docs`: the pages joined by blank lines, in retrieval order, and the video names. */
  function FormatDocs(docs: seq<Document>): (r: Result<(string, set<Value>)>)
    ensures r.Ok? <==> forall i :: 0 <= i < |docs| ==> !Unhashable(docs[i])
    ensures r.Ok? ==> forall i :: 0 <= i < |docs| ==> Contains(r.value.0, docs[i].pageContent)
    ensures r.Ok? && |docs| == 1 ==> r.value.0 == docs[0].pageContent
    ensures r.Ok? ==> r.value.1 == Resources(docs).value
    ensures r.Err? ==> r.message == "TypeError: unhashable type: '" + FirstUnhashableType(docs) + "'"
  {
    match Resources(docs)
    case None => Err("TypeError: unhashable type: '" + FirstUnhashableType(docs) + "'")
    case Some(resources) =>
      JoinContainsAll(Pages(docs), PageSeparator);
      Ok((Join(Pages(docs), PageSeparator), resources))
  }

  /** `rag_query`: the chain's reply over the retrieved context, followed by the invitation,
      paired with the question. `retrieve` and `chain` stand for the retriever and the
      prompt-model-parser chain, `None` for a failed call. */
  function RagQuery(question: string, retrieve: string -> Option<seq<Document>>,
                    chain: (string, string) -> Option<string>): (r: Result<(string, string)>)
    ensures r.Ok? <==> retrieve(question).Some? && FormatDocs(retrieve(question).value).Ok?
                       && chain(FormatDocs(retrieve(question).value).value.0, question).Some?
    ensures r.Ok? ==> r.value.1 == question && EndsWith(r.value.0, Invitation)
    ensures r.Ok? ==> r.value.0[..|r.value.0| - |Invitation|]
                      == chain(FormatDocs(retrieve(question).value).value.0, question).value
  {
    match retrieve(question)
    case None => Err("the retriever failed")
    case Some(docs) =>
      match FormatDocs(docs)
      case Err(e) => Err(e)
      case Ok((context, _)) =>
        match chain(context, question)
        case None => Err("the chain failed")
        case Some(response) =>
          var full := response + Invitation;
          assert full[|full| - |Invitation|..] == Invitation;
          assert full[..|full| - |Invitation|] == response;
          Ok((full, question))
  }
}
