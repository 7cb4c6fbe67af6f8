# Guardrails, metadata normalisation and singleton lifecycles of a conversational RAG chatbot

This project is a Dafny model of the parts of the chatbot that hold its own logic. Everything
else in the repository is wiring around LangChain, LangGraph, Chroma and Gemini.

- **The guardrails gate** (`GuardrailsSecurity`). `validate_input` rejects a question that is
  missing or blank. It then rejects one whose stripped text is longer than `max_input_chars`
  (2000 by default). Last, it rejects one whose lowered text contains a blocked phrase. It
  returns the stripped text. `validate_output` rejects an answer dict without messages. It then
  looks only at the last message's stripped content. It rejects that content when it is longer
  than `max_output_chars` (4000 by default) or matches one of eight secret-like patterns.
  `__post_init__` installs 24 default phrases when the caller gives none. Raised `ValueError`s
  are modelled as `Failure` values.
- **Metadata normalisation.** The same loop appears in `ChatbotSingleton._initialize` and in
  `RagSingletonTraining.__new__`. For every document it back-fills the eight mandatory keys
  with `"N/A"`. It replaces a present mandatory value that exposes `.item()` (a NumPy scalar,
  say) by what `.item()` returns. It leaves every other key alone.
- **The two singletons.** `ChatbotSingleton` builds its chain only on the first construction.
  Every construction does get-or-create on a class-wide `session_id → history` store and makes
  that history the (one, shared) instance's `session`. `RagSingletonTraining` does one-shot
  training: QA model, ETL, normalisation, vector store. Its getters read what that first
  construction stored. Python class attributes become fields of an object that stands for the
  class (`ChatbotSingletonClass`, `RagSingletonTrainingClass`).

Files: `wrappers.dfy` (Option, Result), `pytext.dfy` (Python's `strip`, ASCII `lower` and the
substring test), `guardrails.dfy`, `metadata.dfy`, `handles.dfy` (the library objects as opaque
handles, `get_env_var`, and the ingest-and-index step both singletons share), `chatbot.dfy`,
`training.dfy`. The methods `Chatbot.TwoSessions` and `Training.ConstructTwice` are verified
clients. They show that two constructions share one instance, that the first session keeps its
history, and that the second construction rebuilds nothing.

Facts about the code worth knowing before reading the model:
- The code lists eight mandatory metadata keys (chatbot_com_rag/chat.py:98-107, and the same
  eight at rags/singleton_training.py:48-57).
- Only those eight keys are unwrapped with `.item()`. A boxed value under any other key is
  kept as it is (`Metadata.Normalized`).
- None of the 24 default phrases occurs in "ignore previous instructions", so that question
  is accepted by the default gate.
- `validate_output` rejects only an answer with no messages. A blank last message is accepted
  as `""` (`Guardrails.BlankAnswerAccepted`).

## Model

| member | source | states |
|---|---|---|
| `PyText.Strip` | guardrails_security.py:66-69 | the stripped text has no whitespace at either end and is no longer than the input |
| `PyText.LStrip` | guardrails_security.py:69 | the result is a suffix of the input, everything cut off is whitespace, and it does not start with whitespace |
| `PyText.RStrip` | guardrails_security.py:69 | the result is a prefix of the input, everything cut off is whitespace, and it does not end with whitespace |
| `PyText.StripEmptyIffAllSpace` | guardrails_security.py:66 | `not text.strip()` holds exactly when every character is whitespace |
| `PyText.StripIdempotent` | guardrails_security.py:69 | stripping twice equals stripping once |
| `PyText.StripIgnoresSurroundingSpace` | guardrails_security.py:69 | whitespace added around a text does not change its strip |
| `PyText.IsSpace` | guardrails_security.py:66 | the characters `str.isspace()` accepts, which `str.strip()` removes |
| `PyText.Lower` | guardrails_security.py:73 | same length, each character ASCII-lowered |
| `PyText.Contains` | guardrails_security.py:75 | Python's `phrase in lowered`: the phrase occurs at some position of the text |
| `Guardrails.GuardError.Text` | guardrails_security.py:67-106 | the message of each of the six `ValueError`s |
| `Guardrails.MatchesAt` | guardrails_security.py:47-56 | each of the eight compiled patterns as a predicate on a text and a start index: the Google key with its `\b` boundaries and 35 key characters, the OpenAI-like key with 20 or more letters and digits, and the six `(?i)` literals |
| `Guardrails.Search` | guardrails_security.py:104 | `pattern.search(text)`: a match starts at some index of the text |
| `Guardrails.MessagesOf` | guardrails_security.py:85 | `content.get("messages", [])` |
| `Guardrails.AnyPhraseIn` | guardrails_security.py:74-76 | the phrase loop finds a phrase iff some listed phrase occurs in the lowered text |
| `Guardrails.AnyPatternIn` | guardrails_security.py:103-106 | the regex loop finds a match iff some listed pattern is found in the text |
| `Guardrails.GuardrailsSecurity.constructor` | guardrails_security.py:14-56 | an empty phrase list is replaced by the 24 defaults, a non-empty one is kept, limits are stored, the eight patterns are installed |
| `Guardrails.GuardrailsSecurity.Default` | guardrails_security.py:14-56 | the defaults: 2000, 4000, the 24 built-in phrases, the eight patterns |
| `Guardrails.GuardrailsSecurity.ValidateInput` | guardrails_security.py:58-78 | `None` or blank gives EmptyInput; else a stripped length over the limit gives InputTooLong; else a blocked phrase in the lowered text gives UnsafeInput; else success with the stripped text, which contains no phrase (each case iff) |
| `Guardrails.GuardrailsSecurity.ValidateOutput` | guardrails_security.py:80-108 | no messages gives EmptyOutput; else the last message's stripped content over the limit gives OutputTooLong; else a pattern match gives SensitiveOutput; else success with that content (each case iff) |
| `Guardrails.ValidateInputIdempotent` | guardrails_security.py:69-78 | validating an accepted result again returns it unchanged |
| `Guardrails.ValidateInputIgnoresSurroundingSpace` | guardrails_security.py:66-71 | surrounding whitespace changes neither the verdict nor the accepted text, so it does not count towards the length limit |
| `Guardrails.DefaultInputLimit` | guardrails_security.py:70-71 | with the default limit, 2001 stripped characters are too long and 2000 are not |
| `Guardrails.LengthCheckedBeforePhrases` | guardrails_security.py:66-76 | a question holding a blocked phrase is reported too long when it is, and unsafe only otherwise |
| `Guardrails.UppercasePhraseNeverMatches` | guardrails_security.py:73-76 | phrases are not lowered, so a phrase with an upper-case ASCII letter never occurs in any lowered text and so never causes a rejection |
| `Guardrails.ValidateOutputOnlyLastMessage` | guardrails_security.py:85-99 | two answers whose last messages have the same content get the same verdict |
| `Guardrails.BlankAnswerAccepted` | guardrails_security.py:97-108 | a blank last message is accepted as the empty string |
| `Guardrails.MarkerSearchIffContains` | guardrails_security.py:50-55 | a `(?i)` literal is found iff it occurs in the ASCII-lowered text |
| `Guardrails.AcceptedOutputHasNoSecrets` | guardrails_security.py:100-108 | an accepted answer is within the limit, has none of `gemini_api_key`, `api_key`, `senha`, `token`, `secret`, `.env` in any ASCII case, and no match of either key pattern |
| `Guardrails.AcceptedOutputMatchesNothing` | guardrails_security.py:99-108 | an accepted answer is within the output limit and none of the gate's patterns is found in it |
| `Guardrails.UnmatchedTextHasNoSecrets` | guardrails_security.py:47-56 | a text in which none of the eight patterns is found contains no marker in any ASCII case and no match of either key pattern |
| `Guardrails.BareOpenAiKeyFound` | guardrails_security.py:49 | `sk-` followed by 20 or more letters and digits (and nothing else) is found by the OpenAI-like key pattern |
| `Guardrails.BareGoogleApiKeyFound` | guardrails_security.py:48 | `AIza` followed by 35 key characters, the last a word character, is found by the Google key pattern |
| `Guardrails.RejectsBareGoogleApiKey` | guardrails_security.py:48-106 | an answer that is just such a Google key is rejected as sensitive |
| `Guardrails.AlnumRunEnd` | guardrails_security.py:49 | the run of ASCII letters and digits from a position ends where a non-alphanumeric character or the end of the text is |
| `Guardrails.OpenAiKeyMatchesWholeRun` | guardrails_security.py:49 | `\bsk-[A-Za-z0-9]{20,}\b` matches at a position iff the whole alphanumeric run after `sk-` is at least 20 long and is not followed by `_` |
| `Guardrails.RejectsBareOpenAiKey` | guardrails_security.py:49 | an answer that is `sk-` and 20 or more letters and digits is rejected as sensitive |
| `Metadata.Value.HasItem` | chatbot_com_rag/chat.py:118 | `hasattr(value, "item")`: true exactly for a boxed value; the same test is at rags/singleton_training.py:66 |
| `Metadata.Coerce` | chatbot_com_rag/chat.py:115-119 | the result has no `.item` attribute and holds the value `.item()` returns; a value without `.item` is left as it is |
| `Metadata.Normalized` | chatbot_com_rag/chat.py:98-121 | all eight keys are present and none of them exposes `.item`; an absent one is `"N/A"`; a present one is its unwrapped value; other keys keep their values; the key set is the old keys plus the eight; no metadata or empty metadata gives exactly the defaults |
| `Metadata.DefaultsCoverRequiredKeys` | chatbot_com_rag/chat.py:98-107 | the default pairs name exactly the eight mandatory keys, each with `"N/A"` |
| `Metadata.NormalizedIdempotent` | chatbot_com_rag/chat.py:110-121 | normalising twice gives the same metadata as once |
| `Metadata.PresentKeyNotReplaced` | chatbot_com_rag/chat.py:112-119 | a present mandatory key ends up `"N/A"` only if its own unwrapped value is `"N/A"` |
| `Metadata.Document.constructor` | chatbot_com_rag/chat.py:110-121 | a LangChain document: fixed page content, and metadata that may be `None` (the only field the loop writes) |
| `Metadata.NormalizeMetadata` | chatbot_com_rag/chat.py:111-119 | the inner loop over the default pairs computes exactly `Normalized` of the document's metadata |
| `Metadata.NormalizeDocuments` | chatbot_com_rag/chat.py:110-121 | every listed document's metadata becomes `Normalized` of its old metadata, a document listed twice included; only metadata is written |
| `Handles.History.constructor` | chatbot_com_rag/chat.py:44 | a new history is empty |
| `Handles.Llm.constructor` | chatbot_com_rag/chat.py:87-91 | the model records its name, temperature and key |
| `Handles.Embeddings.constructor` | chatbot_com_rag/chat.py:81-84 | the embeddings record their model name and key |
| `Handles.VectorStore.constructor` | chatbot_com_rag/chat.py:124 | the store records the documents and a copy of their metadata at indexing time |
| `Handles.RagChain.constructor` | chatbot_com_rag/chat.py:143-170 | the chain records its LLM, its vector store, the BM25 documents, top-k 5 for both retrievers and weights 0.7 and 0.3 |
| `Handles.EtlProcess.constructor` | rags/singleton_training.py:46 | the ETL stands for a fixed list of extracted documents and has not been called yet |
| `Handles.EtlProcess.Run` | rags/singleton_training.py:46 | the ETL returns its documents and records the LLM it was handed |
| `Handles.IngestAndIndex` | rags/singleton_training.py:46-73 | the ETL is called once with the given LLM; every document is normalised; a fresh store indexes the normalised metadata of exactly those documents |
| `Chatbot.ChatbotSingletonClass.constructor` | chatbot_com_rag/chat.py:22-23 | no instance and an empty session store |
| `Chatbot.ChatbotSingletonClass.Construct` | chatbot_com_rag/chat.py:25-46 | the first call builds and initialises a fresh instance and leaves a fresh empty history for the session; later calls return the same instance and rebuild nothing; always the store has the session and `session` is its entry, other sessions' entries are unchanged, and the instance's gate is `GuardrailsSecurity()` with limits 2000 and 4000, the 24 default phrases and the eight patterns |
| `Chatbot.ChatbotSingleton.constructor` | chatbot_com_rag/chat.py:31 | a new instance has none of its attributes set |
| `Chatbot.ChatbotSingleton.Init` | chatbot_com_rag/chat.py:36-46 | get-or-create: an existing history is kept and the store unchanged, a missing one is added fresh and empty; `session` is the store's entry |
| `Chatbot.ChatbotSingleton.Initialize` | chatbot_com_rag/chat.py:57-173 | builds the LLM and embeddings with the source's models and the `GEMINI_API_KEY` value, runs the ETL with the LLM, normalises every document, indexes them, builds the chain and the gate `GuardrailsSecurity()` with all four fields at their defaults, and overwrites the session's entry with a fresh empty history |
| `Training.SummaryEnabled` | rags/singleton_training.py:43 | unset gives false; otherwise true iff the value is `1`, or `true` or `yes` in any ASCII case |
| `Training.SummaryFlagNotTrimmed` | rags/singleton_training.py:43 | a value with whitespace at either end gives false |
| `Training.SummaryFlagExamples` | rags/singleton_training.py:43 | `TRUE`, `Yes` and `1` give true; `0`, `" true"` and unset give false |
| `Training.RagSingletonTrainingClass.constructor` | rags/singleton_training.py:15-18 | every class attribute starts unset |
| `Training.RagSingletonTrainingClass.Construct` | rags/singleton_training.py:20-75 | the first call builds the QA model and the embeddings, both with the `GEMINI_API_KEY` value, hands the ETL the QA model iff summaries are enabled (none otherwise), normalises and stores the documents and indexes them; later calls return the same instance, call no ETL and change no attribute |
| `Training.RagSingletonTraining.constructor` | rags/singleton_training.py:26 | the instance belongs to its class |
| `Training.RagSingletonTraining.GetVectorStore` | rags/singleton_training.py:77-78 | returns the stored vector store, whose every indexed entry has all eight keys |
| `Training.RagSingletonTraining.GetQaLlm` | rags/singleton_training.py:80-81 | returns the stored QA model, built with the source's model name and temperature |
| `Training.RagSingletonTraining.GetDocuments` | rags/singleton_training.py:83-84 | returns the very list the vector store indexed |

## Left out

- Retrieval itself: the semantic top-k, BM25 ranking, the 0.7/0.3 ensemble merge and the history-aware question rewrite. These are library code. Only their construction parameters are recorded, in `Handles.RagChain`.
- `RunnableWithMessageHistory` and how turns are recorded (chatbot_com_rag/chat.py:49-55). `Handles.History` is an opaque handle whose only modelled state is "empty when created".
- Handles.GetEnvVar: this is a plain definition, not a proved member. The `utils` module that the core imports is not part of this model. `get_env_var` is taken to be `os.getenv(key, default)`, as in analise_de_dados/utils.py.
- The LLM, embedding model, ETL and Chroma calls. They are opaque handles. The ETL's output is a parameter (`Handles.EtlProcess`). `load_environment_variables` and the environment are an explicit map.
- Exceptions raised by those collaborators. In the source both `__new__` methods set the instance attribute before initialisation runs. So a failure during the first initialisation would leave a half-initialised singleton for every later construction. The model assumes initialisation succeeds.
- The `print` logging: in `validate_output` (guardrails_security.py:96, 105), in `ChatbotSingleton.__init__` (chatbot_com_rag/chat.py:41), in `_initialize` (chatbot_com_rag/chat.py:72) and in `RagSingletonTraining.__new__` (rags/singleton_training.py:28). The `response_metadata` lookups of `validate_output` (guardrails_security.py:91-95) are left out as well. None of these affects the result.
- Non-string `text` (the source applies `str()`), non-string message content, and a `messages` value that is not a list.
- Metadata.Coerce: `.item()` is assumed to succeed and to return a value without `.item`. NumPy's `ValueError` for an array of more than one element is not modelled. A value without `.item` that is not a primitive (a list, a dict, a `datetime`) is modelled only by its type name, as `Plain.Other`.
- Aliasing of metadata dicts. The source mutates a non-empty dict in place, so another holder of the same dict sees the change. The model writes a new map value into the document's field.
- Concurrency. The class-level dictionaries have no locks.
- Guardrails.GuardrailsSecurity.ValidateInput: case folding is ASCII only. Python's `str.lower()` also lowers non-ASCII letters such as `Ç`. So the model does not reject `IGNORE AS INSTRUÇÕES`, although the source would.
- Guardrails.AcceptedOutputHasNoSecrets: the key shapes are excluded only where the regexes' `\b` boundaries hold, as in the source. `\w` is taken as ASCII `[A-Za-z0-9_]`, whereas Python's Unicode `\w` also counts non-ASCII letters and digits. ASCII `(?i)` folding is used, so Unicode case-insensitive matches such as the Kelvin sign for `k` are not modelled.
- Training.SummaryEnabled: ASCII lowering. For the three accepted words this agrees with Python's `str.lower()`.
- tools/graph_tool.py, tools/multimodal_inputs.py, chatbot_com_rag/compare_embeddings_models.py, the CLI loop in chatbot_com_rag/main.py and the API entry point. They are external tool loops, floating-point code or I/O.
