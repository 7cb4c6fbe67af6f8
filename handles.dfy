/**
 * The library objects the two singletons create and hold, as opaque handles: what each one
 * was built from is recorded, what it does later is not modelled. Also the environment lookup
 * `get_env_var`.
 */
module Handles {
  import opened Wrappers
  import opened Metadata

  /** `get_env_var(key, default)`: `os.getenv(key, default)` over an explicit environment. */
  function GetEnvVar(env: map<string, string>, key: string, default: Option<string>): Option<string> {
    if key in env then Some(env[key]) else default
  }

  /** `InMemoryChatMessageHistory`: one session's conversation. */
  class History {
    var messages: seq<(string, string)>

    constructor ()
      ensures messages == []
    {
      messages := [];
    }
  }

  /** `ChatGoogleGenerativeAI(model=..., temperature=..., api_key=...)`. */
  class Llm {
    const model: string
    const temperature: real
    const apiKey: Option<string>

    constructor (model: string, temperature: real, apiKey: Option<string>)
      ensures this.model == model && this.temperature == temperature && this.apiKey == apiKey
    {
      this.model := model;
      this.temperature := temperature;
      this.apiKey := apiKey;
    }
  }

  /** `GoogleGenerativeAIEmbeddings(model=..., google_api_key=...)`. */
  class Embeddings {
    const model: string
    const apiKey: Option<string>

    constructor (model: string, apiKey: Option<string>)
      ensures this.model == model && this.apiKey == apiKey
    {
      this.model := model;
      this.apiKey := apiKey;
    }
  }

  /** `results_by_chromadb(documents, embeddings)`: a vector store built over the documents. */
  class VectorStore {
    const documents: seq<Document>
    const embeddings: Embeddings
    /** The metadata of every document as it was when the store copied it. */
    const indexed: seq<Option<Metadata>>

    constructor (documents: seq<Document>, embeddings: Embeddings)
      ensures this.documents == documents && this.embeddings == embeddings
      ensures indexed == MetadataOf(documents)
    {
      this.documents := documents;
      this.embeddings := embeddings;
      indexed := MetadataOf(documents);
    }
  }

  /**
   * The retrieval chain `_initialize` assembles: a semantic retriever (top 5) over the vector
   * store and a BM25 retriever (top 5) over the documents merged with weights 0.7 and 0.3,
   * a history-aware query rewriter and a question-answering chain over the LLM.
   */
  class RagChain {
    const llm: Llm
    const vectorStore: VectorStore
    const lexicalDocuments: seq<Document>
    const semanticK: nat
    const lexicalK: nat
    const weights: (real, real)

    constructor (llm: Llm, vectorStore: VectorStore, lexicalDocuments: seq<Document>)
      ensures this.llm == llm && this.vectorStore == vectorStore && this.lexicalDocuments == lexicalDocuments
      ensures semanticK == 5 && lexicalK == 5 && weights == (0.7, 0.3)
    {
      this.llm := llm;
      this.vectorStore := vectorStore;
      this.lexicalDocuments := lexicalDocuments;
      semanticK := 5;
      lexicalK := 5;
      weights := (0.7, 0.3);
    }
  }

  /**
   * `etl_pdf_process(llm)`: returns the extracted documents. The model records the LLM
   * each call was given (`null` for `None`).
   */
  class EtlProcess {
    const output: seq<Document>
    var summaryLlms: seq<Llm?>

    constructor (output: seq<Document>)
      ensures this.output == output && summaryLlms == []
    {
      this.output := output;
      summaryLlms := [];
    }

    method Run(llm: Llm?) returns (documents: seq<Document>)
      modifies this
      ensures documents == output && summaryLlms == old(summaryLlms) + [llm]
    {
      documents := output;
      summaryLlms := summaryLlms + [llm];
    }
  }

  /**
   * The step both singletons run once: `documents = etl_pdf_process(llm)`, the metadata
   * normalisation loop over them, then `results_by_chromadb(documents, embeddings)`.
   */
  method IngestAndIndex(etl: EtlProcess, llm: Llm?, embeddings: Embeddings) returns (vectorStore: VectorStore)
    modifies etl, etl.output
    ensures fresh(vectorStore) && vectorStore.documents == etl.output && vectorStore.embeddings == embeddings
    ensures etl.summaryLlms == old(etl.summaryLlms) + [llm]
    ensures forall i :: 0 <= i < |etl.output| ==>
      etl.output[i].metadata == Some(Normalized(old(etl.output[i].metadata)))
    ensures |vectorStore.indexed| == |etl.output|
    ensures forall i :: 0 <= i < |etl.output| ==>
      vectorStore.indexed[i] == Some(Normalized(old(etl.output[i].metadata)))
  {
    var documents := etl.Run(llm);
    NormalizeDocuments(documents);
    vectorStore := new VectorStore(documents, embeddings);
  }
}
