/**
 * `ChatbotSingleton` (chatbot_com_rag/chat.py): one chatbot per process, built on the first
 * construction, and a class-wide store from session id to that session's history. Dafny has
 * no class attributes, so the Python class object itself is modelled as an object,
 * `ChatbotSingletonClass`, holding `_instance` and `_session_store`.
 */
module Chatbot {
  import opened Wrappers
  import opened Metadata
  import opened Handles
  import opened Guardrails

  const ChatModel := "gemini-2.5-flash-lite"
  const ChatTemperature := 0.1
  const EmbeddingModel := "gemini-embedding-001"

  /** The class object `ChatbotSingleton` and its class attributes. */
  class ChatbotSingletonClass {
    var instance: ChatbotSingleton?
    var sessionStore: map<string, History>

    constructor ()
      ensures instance == null && sessionStore == map[]
    {
      instance := null;
      sessionStore := map[];
    }

    /**
     * Once the singleton exists, it belongs to this class and `_initialize` has run on it: it
     * has a chain and the gate `GuardrailsSecurity()` with every field at its default.
     */
    ghost predicate Valid()
      reads this, instance, if instance != null then {instance.guardrails} else {}
    {
      instance != null ==>
        && instance.cls == this && instance.ragChain != null && instance.guardrails != null
        && instance.guardrails.maxInputChars == DefaultMaxInputChars
        && instance.guardrails.maxOutputChars == DefaultMaxOutputChars
        && instance.guardrails.blockedPhrases == DefaultBlockedPhrases
        && instance.guardrails.blockedRegex == BlockedRegex
    }

    /**
     * `ChatbotSingleton(session_id)`: `__new__` (which builds and initialises the instance only
     * the first time) followed by `__init__` on whatever `__new__` returned.
     */
    method Construct(sessionId: string, env: map<string, string>, etl: EtlProcess) returns (bot: ChatbotSingleton)
      requires Valid()
      modifies this, instance, etl, etl.output
      ensures Valid() && instance == bot
      ensures sessionId in sessionStore && bot.session == sessionStore[sessionId]
      ensures forall s :: s != sessionId ==> (s in sessionStore <==> s in old(sessionStore))
      ensures forall s :: s != sessionId && s in old(sessionStore) ==> sessionStore[s] == old(sessionStore)[s]
      // every later construction: the same instance, nothing rebuilt, get-or-create on the store
      ensures old(instance) != null ==>
        && bot == old(instance) && bot.ragChain == old(bot.ragChain) && bot.guardrails == old(bot.guardrails)
        && etl.summaryLlms == old(etl.summaryLlms)
        && (forall d :: d in etl.output ==> d.metadata == old(d.metadata))
        && (sessionId in old(sessionStore) ==> sessionStore == old(sessionStore) && bot.session == old(sessionStore)[sessionId])
        && (sessionId !in old(sessionStore) ==> fresh(bot.session) && bot.session.messages == [])
      // the first construction: `_initialize` runs once, and leaves a fresh history for `sessionId`
      ensures old(instance) == null ==>
        && fresh(bot) && fresh(bot.ragChain) && fresh(bot.guardrails)
        && etl.summaryLlms == old(etl.summaryLlms) + [bot.ragChain.llm]
        && bot.ragChain.lexicalDocuments == etl.output && bot.ragChain.vectorStore.documents == etl.output
        && (forall i :: 0 <= i < |etl.output| ==>
              etl.output[i].metadata == Some(Normalized(old(etl.output[i].metadata))))
        && fresh(bot.session) && bot.session.messages == []
    {
      if instance == null {
        var created := new ChatbotSingleton(this);
        instance := created;
        created.Initialize(sessionId, env, etl);
      }
      bot := instance;
      bot.Init(sessionId);
    }
  }

  /** The chatbot instance. */
  class ChatbotSingleton {
    const cls: ChatbotSingletonClass
    /** `self.__rag_chain`, set by `_initialize`. */
    var ragChain: RagChain?
    var guardrails: GuardrailsSecurity?
    /** `self.session`, set by `__init__`. */
    var session: History?

    /** `super().__new__(cls)`: an instance none of whose attributes is set yet. */
    constructor (cls: ChatbotSingletonClass)
      ensures this.cls == cls && ragChain == null && guardrails == null && session == null
    {
      this.cls := cls;
      ragChain := null;
      guardrails := null;
      session := null;
    }

    /**
     * `__init__`: get-or-create the history of `sessionId` in the class-wide store, and
     * make it this instance's session.
     */
    method Init(sessionId: string)
      modifies this`session, cls`sessionStore
      ensures session != null && sessionId in cls.sessionStore && session == cls.sessionStore[sessionId]
      ensures sessionId in old(cls.sessionStore) ==>
        cls.sessionStore == old(cls.sessionStore) && session == old(cls.sessionStore)[sessionId]
      ensures sessionId !in old(cls.sessionStore) ==>
        cls.sessionStore == old(cls.sessionStore)[sessionId := session] && fresh(session) && session.messages == []
    {
      if sessionId !in cls.sessionStore {
        var history := new History();
        cls.sessionStore := cls.sessionStore[sessionId := history];
      }
      session := cls.sessionStore[sessionId];
    }

    /**
     * `_initialize`: build the models, run the ETL, normalise the documents' metadata,
     * index them, assemble the chain and the guardrails, and reset the history of `sessionId`.
     */
    method Initialize(sessionId: string, env: map<string, string>, etl: EtlProcess)
      modifies this`ragChain, this`guardrails, cls`sessionStore, etl, etl.output
      ensures ragChain != null && fresh(ragChain) && fresh(ragChain.llm) && fresh(ragChain.vectorStore)
      ensures ragChain.llm.model == ChatModel && ragChain.llm.temperature == ChatTemperature
      ensures ragChain.llm.apiKey == GetEnvVar(env, "GEMINI_API_KEY", None)
      ensures ragChain.vectorStore.embeddings.model == EmbeddingModel
      ensures ragChain.vectorStore.embeddings.apiKey == GetEnvVar(env, "GEMINI_API_KEY", None)
      ensures etl.summaryLlms == old(etl.summaryLlms) + [ragChain.llm]
      ensures ragChain.lexicalDocuments == etl.output && ragChain.vectorStore.documents == etl.output
      ensures forall i :: 0 <= i < |etl.output| ==>
        etl.output[i].metadata == Some(Normalized(old(etl.output[i].metadata)))
      ensures |ragChain.vectorStore.indexed| == |etl.output|
      ensures forall i :: 0 <= i < |etl.output| ==>
        ragChain.vectorStore.indexed[i] == Some(Normalized(old(etl.output[i].metadata)))
      ensures guardrails != null && fresh(guardrails)
      ensures guardrails.maxInputChars == DefaultMaxInputChars && guardrails.maxOutputChars == DefaultMaxOutputChars
      ensures guardrails.blockedPhrases == DefaultBlockedPhrases && guardrails.blockedRegex == BlockedRegex
      ensures sessionId in cls.sessionStore && fresh(cls.sessionStore[sessionId])
      ensures cls.sessionStore[sessionId].messages == []
      ensures cls.sessionStore == old(cls.sessionStore)[sessionId := cls.sessionStore[sessionId]]
    {
      var apiKey := GetEnvVar(env, "GEMINI_API_KEY", None);
      var embeddings := new Embeddings(EmbeddingModel, apiKey);
      var llm := new Llm(ChatModel, ChatTemperature, apiKey);
      var vectorStore := IngestAndIndex(etl, llm, embeddings);
      ragChain := new RagChain(llm, vectorStore, vectorStore.documents);
      guardrails := new GuardrailsSecurity.Default();
      var history := new History();
      cls.sessionStore := cls.sessionStore[sessionId := history];
    }
  }

  /**
   * A client of the model: two constructions with different session ids return one shared
   * instance, whose `session` now is the second session's history; the first session keeps
   * its own history, and constructing it again finds that same history.
   */
  method TwoSessions(env: map<string, string>, etl: EtlProcess)
    modifies etl, etl.output
  {
    var cls := new ChatbotSingletonClass();
    var first := cls.Construct("s1", env, etl);
    var h1 := first.session;
    var second := cls.Construct("s2", env, etl);
    assert second == first && first.session == cls.sessionStore["s2"];
    assert cls.sessionStore["s1"] == h1 && h1 != first.session;
    var third := cls.Construct("s1", env, etl);
    assert third == first && third.session == h1;
    // the gate every session answers through is `GuardrailsSecurity()` with its defaults
    assert third.guardrails.maxOutputChars == DefaultMaxOutputChars && third.guardrails.blockedRegex == BlockedRegex;
  }
}
