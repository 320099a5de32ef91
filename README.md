# Grounded counselling chat: knowledge context and turn handling

This project models the core of a Streamlit counselling assistant (`app.py`). The assistant
answers questions from the PDF documents in a `docs` directory. The model covers four parts:

- **Knowledge context** (`get_knowledge_context`). Read every `.pdf` entry page by page. Collect each
  non-empty page text followed by a newline. A document that raises is skipped from the failing page on.
  With no text at all, answer a fixed sentinel. Otherwise try the semantic search (only when the
  retrieval libraries loaded and the query is non-empty). It answers at most four chunk texts joined
  by newlines. If it fails, or is not tried, the answer is the first 12000 characters of the collected text.
- **Request assembly**: one system message (the persona prompt with the user's name, age and the
  knowledge context) followed by the last five stored messages.
- **Turn handling** over the session's message list. A non-empty chat input is appended as a user
  message. Generation fires only when the last message is the user's. A successful completion appends
  exactly one assistant message; any failure leaves the list unchanged.
- **Admission guard**: a profile is stored only when the form was submitted with a name and an
  education level.

Files:

- `common.dfy` (module `Common`): `Option`, `Min`, and Python's `s[:n]` and `s[-n:]` slices.
- `knowledge.dfy` (module `Knowledge`): the context builder.
- `conversation.dfy` (module `Conversation`): the prompt and request, the turn, and the `Session` class
  whose `profile` and `messages` fields the methods update in place.
  The prompt is written over a `PromptTemplate`: the four fixed texts of the f-string around the name,
  the age and the context. `Persona` holds the exact Arabic text of app.py:145-153, and this is the
  template every turn uses. The layout is proved for every template, so the proofs never depend on
  the literal text.

External collaborators are parameters:

- The `docs` directory is `Missing`, `Unlistable` or `Listed(entries)`. `Unlistable` is a path that
  exists but that `os.listdir` cannot list, such as a plain file named `docs`. That call sits outside
  the `try` of app.py:99, so `get_knowledge_context` raises and the turn fails at app.py:167. Each entry is a
  file name and the reader's page results in order: `Extracted(text)`, `NoText` (for `None`), or
  `Raises`. `Raises` stands for any exception, whether on opening, iterating or extracting; the
  pages after it are never read.
- The splitter, embedding model, index build and similarity search form one oracle, `SemanticSearch`.
  It maps the collected text and the query to `Found(chunks)` (at most four, by the type `Hits`) or
  `SearchFailed`.
- The completion client is an oracle from the outgoing message list to `Completed(content)` or
  `CompletionFailed`. `Backend` bundles both oracles with the directory and the library flag.
- Characters are Unicode scalar values, so `all_text[:12000]` counts characters as Python does.

Behaviour of the code worth noting:

- The prompt interpolates only the name and the age, not the gender or the education
  (`PromptIgnoresGenderAndEducation`).
- An empty reply is appended as it is; no polite substitute is used.
- Under `@st.cache_resource` the index is rebuilt for every distinct query, not built once.
- The fallback keeps 12000 characters; the comment at app.py:122 says ten thousand.

## Model

| member | source | states |
|---|---|---|
| `Knowledge.AppendDocument` | app.py:102-105 | the accumulator grows by exactly the document's text: each non-empty page text plus a newline, in page order, up to the first page that raises |
| `Knowledge.ExtractAllText` | app.py:94-105 | for a listed or missing directory the collected text equals the listing's text: entries in listing order, only `.pdf` ones, empty for a missing directory; an unlistable directory raises (`None`), and nothing else does |
| `Knowledge.GetKnowledgeContext` | app.py:93-123 | the result is `KnowledgeContext`, the function the turn uses: the call raises exactly for an unlistable directory; otherwise the context is the tier `ContextFor` chooses for the collected text, the library flag, the query and the search outcome |
| `Knowledge.CorpusTextAppend` | app.py:97-105 | the text of a listing split anywhere is the text of the first part followed by that of the rest |
| `Knowledge.NonPdfEntryIgnored` | app.py:97-98 | inserting an entry whose name does not end with `.pdf` anywhere in the listing leaves the text unchanged |
| `Knowledge.OnlyPdfEntriesContribute` | app.py:97-98 | the text equals the text of the listing filtered to its `.pdf` entries |
| `Knowledge.DocumentsInOrder` | app.py:97-105 | each document contributes its own text in listing order, whatever earlier documents did, failures included |
| `Knowledge.DocumentTextAppend` | app.py:102-104 | pages read without error contribute in order: first part's text, then the rest's |
| `Knowledge.FailureKeepsPrefix` | app.py:99-105 | a document failing after pages `a` contributes exactly the text of `a`, whatever pages follow |
| `Knowledge.BlankPageIgnored` | app.py:103-104 | a page with no text or empty text contributes nothing, wherever it stands |
| `Knowledge.PageContributesLine` | app.py:103-104 | a page with non-empty text `t` contributes exactly `t + "\n"` |
| `Knowledge.DocumentTextShape` | app.py:104 | a document's text is empty or ends with a newline |
| `Knowledge.CorpusTextShape` | app.py:104 | the collected text is empty or ends with a newline |
| `Knowledge.SentinelExactlyWhenNoText` | app.py:107-123 | with no text the result is the sentinel whatever the query, the flag and the search; whenever the fallback tier answers, a sentinel result means no text was collected |
| `Knowledge.SemanticHitCanSpellSentinel` | app.py:107-118 | on the semantic tier the converse fails: a document holding the sentinel sentence can yield it as a hit |
| `Knowledge.FallbackIgnoresQuery` | app.py:111-123 | off the semantic tier the result is a prefix of the text of length `min(12000, len(text))`, independent of the query, the flag and the search |
| `Knowledge.SemanticFailureFallsBack` | app.py:112-123 | a failing semantic path gives the same result as the truncation fallback |
| `Knowledge.SemanticResultIsJoinedHits` | app.py:113-118 | a successful search's result holds its at most four chunks verbatim, in the order returned, at the offsets of `"\n".join` with a newline between neighbours (empty for no chunks); it splits back into the chunks when there is at least one and none holds a newline |
| `Knowledge.SplitJoin` | app.py:118 | `"\n".join` is undone by splitting at newlines when the list is non-empty and no part holds a newline |
| `Knowledge.JoinLinesLayout` | app.py:118 | `"\n".join(parts)` holds every part verbatim at its offset, a newline before each later part, and ends with the last part |
| `Common.SlicePrefix` | app.py:123 | `s[:n]` is a prefix of `s` of length `min(n, len(s))` |
| `Common.SliceSuffix` | app.py:156 | `s[-n:]` has length `min(n, len(s))` and holds the last elements of `s` in order |
| `Conversation.Admission` | app.py:85-86 | the profile is replaced by the form's answers when the guard holds, and left as it was otherwise |
| `Conversation.ProfileOnlyWhenAdmitted` | app.py:85-86 | starting without a profile, one exists afterwards if and only if the form was submitted with a non-empty name and education |
| `Conversation.Session.Admit` | app.py:79-86 | the stored profile becomes `Admission` of the old one; the messages are untouched |
| `Conversation.DecimalString` | app.py:149 | `str(age)` is a digit string that denotes the age and has no leading zero |
| `Conversation.SystemPrompt` | app.py:145-153 | for any template, and so for the persona template the application sends: the prompt opens with the instruction block, then holds the user's name, the age lead, `str(age)`, the references lead, the knowledge context and the closing indentation, each verbatim at its offset, and nothing else |
| `Conversation.PromptIgnoresGenderAndEducation` | app.py:143-153 | for any template, profiles that agree on name and age give the same prompt |
| `Conversation.Request` | app.py:155-156 | the outgoing list has length `1 + min(5, len(messages))`, the system message first, then the last `min(5, len(messages))` stored messages in order |
| `Conversation.OlderMessagesDropped` | app.py:156 | once five messages follow them, earlier messages do not change the outgoing list |
| `Conversation.NextTurn` | app.py:137-168 | a step is idle exactly when the list is empty or its last role is not `user`; otherwise it fails when the knowledge context raises, replies with the completion's content when the completion succeeds, and fails when it does not; a reply appends exactly one assistant message with that content; a failure changes nothing |
| `Conversation.UnlistableDirectoryFailsTurn` | app.py:137-168 | with an unlistable `docs` path a pending turn fails and leaves the list unchanged |
| `Conversation.ReplyAnswersLastQuestion` | app.py:137-164 | a reply is the completion of a request of length `1 + min(5, len(messages))` whose system prompt carries the context for the last user message, and whose last element is that message |
| `Conversation.ReplyIsReachable` | app.py:137-164 | with no `docs` directory and a client that answers, a single pending question is replied to with the client's answer, appended after it |
| `Conversation.ReplySettlesTurn` | app.py:137-166 | after a reply the next step is idle, whatever the oracles then do |
| `Conversation.FailureKeepsQuestionPending` | app.py:137-168 | after a failure the user's message still awaits a reply, so the next step fires again |
| `Conversation.OlderMessagesDoNotInfluenceTurn` | app.py:137-162 | with at least five recent messages, earlier history changes neither the request nor the outcome |
| `Conversation.Session.constructor` | app.py:126-127 | a fresh session has no profile and an empty message list |
| `Conversation.Session.SubmitInput` | app.py:133-134 | a non-empty input is appended as a user message, which then awaits a reply; no input leaves the list unchanged |
| `Conversation.Session.Generate` | app.py:137-168 | the outcome and the new message list are those of `NextTurn` on the old list; the list is only extended, by at most one message |

## Left out

- Streamlit presentation: page setup, CSS, message bubbles, spinner, error and warning notices, and
  `st.stop`/`st.rerun` control flow (app.py:15-65, 72-89, 129-131). The only trace of `st.stop` at
  app.py:89 is that `Session.Generate` requires a stored profile.
- The API-key lookup in the secrets store (app.py:16-20): configuration, not logic.
- Filesystem and PDF parsing (`os.path.exists`, `os.listdir`, `PdfReader`, `extract_text`): foreign
  I/O, replaced by the listing input and per-page results. Listing order is taken as given.
- `RecursiveCharacterTextSplitter`, `HuggingFaceEmbeddings`, `FAISS` (app.py:113-117). Their chunk
  boundaries, overlap and ranking are not visible in the code. They are one oracle that returns
  at most four strings or fails.
- `@st.cache_resource` memoisation (app.py:92): framework caching keyed by the argument. It does not
  change the result for a given directory snapshot.
- The Groq client, model name and `temperature=0.3` (app.py:142, 158-162): a network call and a
  float. They are one completion oracle; a client that fails on construction is a `CompletionFailed`.
- A reply whose content is `None`: the reply content is a string here.
- The age widget's bounds 18..120 (app.py:82) are enforced by Streamlit; the model takes any natural
  number.
- Knowledge.SemanticResultIsJoinedHits: the split-back round trip is stated only for a non-empty list of
  chunks without newlines. Chunks cut from page text nearly always hold newlines, and then splitting
  cannot tell a newline inside a chunk from the separator. The layout clause holds for every chunk list.
- Knowledge.SentinelExactlyWhenNoText: the "only if" direction is stated for the fallback tier only,
  because on the semantic tier a chunk can spell the sentinel (`SemanticHitCanSpellSentinel`).
