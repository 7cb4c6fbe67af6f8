/**
 * `RagSingletonTraining` (rags/singleton_training.py): the retrieval tool's one-shot
 * training. The first construction builds the QA model, runs the ETL (handing it the QA model
 * for summaries only when `RAG_SUMMARY_ENABLED` says so), normalises the documents' metadata
 * and indexes them; every later construction returns the same instance. As for the chatbot,
 * the class attributes live on an object standing for the Python class.
 */
module Training {
  import opened Wrappers
  import opened PyText
  import opened Metadata
  import opened Handles

  const QaModel := "gemini-2.5-flash-lite"
  const QaTemperature := 0.1
  const EmbeddingModel := "gemini-embedding-001"

  /** `s` equals the lower-case word `word` once its ASCII letters are lowered. */
  predicate EqualsIgnoringCase(s: string, word: string) {
    |s| == |word| && forall k :: 0 <= k < |s| ==> LowerChar(s[k]) == word[k]
  }

  /**
   * `str(get_env_var("RAG_SUMMARY_ENABLED", "false")).lower() in {"1", "true", "yes"}`.
   * Case does not matter, but nothing is trimmed.
   */
  function SummaryEnabled(env: map<string, string>): (enabled: bool)
    ensures "RAG_SUMMARY_ENABLED" !in env ==> !enabled
    ensures "RAG_SUMMARY_ENABLED" in env ==>
      var v := env["RAG_SUMMARY_ENABLED"];
      (enabled <==> v == "1" || EqualsIgnoringCase(v, "true") || EqualsIgnoringCase(v, "yes"))
  {
    var v := GetEnvVar(env, "RAG_SUMMARY_ENABLED", Some("false")).value;
    assert Lower(v) == "true" <==> EqualsIgnoringCase(v, "true");
    assert Lower(v) == "yes" <==> EqualsIgnoringCase(v, "yes");
    assert Lower(v) == "1" <==> v == "1" by {
      if |v| == 1 { assert LowerChar(v[0]) == '1' <==> v[0] == '1'; }
    }
    Lower(v) in {"1", "true", "yes"}
  }

  /** A value with whitespace at either end never enables summaries: `" true"` is off. */
  lemma SummaryFlagNotTrimmed(env: map<string, string>)
    requires "RAG_SUMMARY_ENABLED" in env
    requires var v := env["RAG_SUMMARY_ENABLED"]; v != [] && (IsSpace(v[0]) || IsSpace(v[|v| - 1]))
    ensures !SummaryEnabled(env)
  {
    var v := env["RAG_SUMMARY_ENABLED"];
    assert IsSpace(v[0]) ==> LowerChar(v[0]) == v[0];
    assert IsSpace(v[|v| - 1]) ==> LowerChar(v[|v| - 1]) == v[|v| - 1];
  }

  /** Upper or mixed case turns summaries on; an unset variable, "0" or a padded value does not. */
  lemma SummaryFlagExamples()
    ensures SummaryEnabled(map["RAG_SUMMARY_ENABLED" := "TRUE"])
    ensures SummaryEnabled(map["RAG_SUMMARY_ENABLED" := "Yes"])
    ensures SummaryEnabled(map["RAG_SUMMARY_ENABLED" := "1"])
    ensures !SummaryEnabled(map["RAG_SUMMARY_ENABLED" := "0"])
    ensures !SummaryEnabled(map["RAG_SUMMARY_ENABLED" := " true"])
    ensures !SummaryEnabled(map[])
  {
    var on := map["RAG_SUMMARY_ENABLED" := "TRUE"];
    assert EqualsIgnoringCase(on["RAG_SUMMARY_ENABLED"], "true");
    var yes := map["RAG_SUMMARY_ENABLED" := "Yes"];
    assert EqualsIgnoringCase(yes["RAG_SUMMARY_ENABLED"], "yes");
    SummaryFlagNotTrimmed(map["RAG_SUMMARY_ENABLED" := " true"]);
  }

  /** The class object `RagSingletonTraining` and its class attributes. */
  class RagSingletonTrainingClass {
    var instance: RagSingletonTraining?
    var vectorStore: VectorStore?
    var qaLlm: Llm?
    var documents: Option<seq<Document>>

    constructor ()
      ensures instance == null && vectorStore == null && qaLlm == null && documents == None
    {
      instance := null;
      vectorStore := null;
      qaLlm := null;
      documents := None;
    }

    /**
     * Once the singleton exists, the attributes are set: `__DOCUMENTS` is the list indexed in
     * `__VECTOR_STORE`, and every entry of the index carries all mandatory metadata keys.
     */
    ghost predicate Valid()
      reads this, instance
    {
      instance != null ==>
        && instance.cls == this
        && qaLlm != null && qaLlm.model == QaModel && qaLlm.temperature == QaTemperature
        && vectorStore != null && vectorStore.embeddings.model == EmbeddingModel
        && documents == Some(vectorStore.documents)
        && |vectorStore.indexed| == |vectorStore.documents|
        && forall i :: 0 <= i < |vectorStore.indexed| ==>
             vectorStore.indexed[i].Some? && RequiredKeys <= vectorStore.indexed[i].value.Keys
    }

    /** `RagSingletonTraining()`: `__new__`, whose body runs only the first time. */
    method Construct(env: map<string, string>, etl: EtlProcess) returns (r: RagSingletonTraining)
      requires Valid()
      modifies this, etl, etl.output
      ensures Valid() && instance == r
      ensures old(instance) != null ==>
        && r == old(instance)
        && vectorStore == old(vectorStore) && qaLlm == old(qaLlm) && documents == old(documents)
        && etl.summaryLlms == old(etl.summaryLlms)
        && (forall d :: d in etl.output ==> d.metadata == old(d.metadata))
      ensures old(instance) == null ==>
        && fresh(r) && fresh(qaLlm) && fresh(vectorStore)
        && qaLlm.model == QaModel && qaLlm.temperature == QaTemperature
        && qaLlm.apiKey == GetEnvVar(env, "GEMINI_API_KEY", None)
        && vectorStore.embeddings.model == EmbeddingModel
        && vectorStore.embeddings.apiKey == GetEnvVar(env, "GEMINI_API_KEY", None)
        && etl.summaryLlms == old(etl.summaryLlms) + [if SummaryEnabled(env) then qaLlm else null]
        && documents == Some(etl.output)
        && (forall i :: 0 <= i < |etl.output| ==>
              && etl.output[i].metadata == Some(Normalized(old(etl.output[i].metadata)))
              && vectorStore.indexed[i] == Some(Normalized(old(etl.output[i].metadata))))
    {
      if instance == null {
        instance := new RagSingletonTraining(this);
        var apiKey := GetEnvVar(env, "GEMINI_API_KEY", None);
        qaLlm := new Llm(QaModel, QaTemperature, apiKey);
        apiKey := GetEnvVar(env, "GEMINI_API_KEY", None);
        var embeddings := new Embeddings(EmbeddingModel, apiKey);
        var summaryEnabled := SummaryEnabled(env);
        var llmForSummary := if summaryEnabled then qaLlm else null;
        var store := IngestAndIndex(etl, llmForSummary, embeddings);
        documents := Some(store.documents);
        vectorStore := store;
      }
      r := instance;
    }
  }

  /** The singleton instance; its getters read the class attributes. */
  class RagSingletonTraining {
    const cls: RagSingletonTrainingClass

    constructor (cls: RagSingletonTrainingClass)
      ensures this.cls == cls
    {
      this.cls := cls;
    }

    /** `get_vector_store()`: the store built at the first construction, every entry normalised. */
    function GetVectorStore(): (store: VectorStore)
      reads cls, cls.instance
      requires cls.Valid() && cls.instance == this
      ensures store == cls.vectorStore
      ensures forall i :: 0 <= i < |store.indexed| ==>
        store.indexed[i].Some? && RequiredKeys <= store.indexed[i].value.Keys
    {
      cls.vectorStore
    }

    /** `get_qa_llm()`: the QA model built at the first construction. */
    function GetQaLlm(): (llm: Llm)
      reads cls, cls.instance
      requires cls.Valid() && cls.instance == this
      ensures llm == cls.qaLlm && llm.model == QaModel && llm.temperature == QaTemperature
    {
      cls.qaLlm
    }

    /** `get_documents()`: the very list the vector store indexed. */
    function GetDocuments(): (docs: seq<Document>)
      reads cls, cls.instance
      requires cls.Valid() && cls.instance == this
      ensures docs == GetVectorStore().documents && |docs| == |GetVectorStore().indexed|
    {
      cls.documents.value
    }
  }

  /** A client of the model: the second construction returns the first instance and rebuilds nothing. */
  method ConstructTwice(env: map<string, string>, etl: EtlProcess)
    modifies etl, etl.output
  {
    var cls := new RagSingletonTrainingClass();
    var calls := etl.summaryLlms;
    var first := cls.Construct(env, etl);
    var store := first.GetVectorStore();
    var second := cls.Construct(env, etl);
    assert second == first && second.GetVectorStore() == store;
    assert |etl.summaryLlms| == |calls| + 1;
  }
}
