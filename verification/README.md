# Research-paper chat: orchestrator, fetch tool and ingestion batch

This project models two deterministic parts of a research assistant that answers chat questions about arXiv papers. The system can fetch new papers into its vector index on demand.

- **`get_answer`** (module `Chat`, file `chat.dfy`) is the per-turn orchestrator. It takes the last message of the transcript as the active query and everything before it as the history. It asks the intent crew for an intent record, which is a dictionary with any keys. It calls the fetch-and-ingest step only when the intent's `fetch` is truthy. It turns the fetched entries into a list of titles (`papers_list`). Finally it kicks off exactly one responder: the QA crew when `use_rag` is truthy, and the chitchat crew otherwise. The crews and the fetch-and-ingest step are opaque. They are the function fields of `Crews`, and each one returns a value or raises. `get_answer` catches none of their exceptions. A `Turn` records every call made to them, in order, together with the reply or the exception raised. The intent record is a `map<string, Value>` over Python values (`Py.Value`), so no key is assumed to be present. Python's truthiness and `dict.get` defaults are modelled as written.
- **The fetch tool and the ingestion batch** (module `ArxivTool`, file `arxiv_tool.dfy`):
  - `_extract_text_from_pdf` keeps the non-empty page texts and joins them with `"\n"`.
  - `build_vector_store_from_documents` filters staged paths into documents and returns a 0/1 status. After a successful build it removes the staged files.
  - `fetch_paper_tool` builds the exact-title arXiv query, returns None when there are no results, and otherwise downloads every result and returns the titles.
  
  The filesystem is a `FileSystem` object that the methods update in place. It holds regular files (each with the page texts a PDF reader yields), directories, and files whose removal the system refuses. The arXiv search (`Search`) and the index build (`Indexer`: chunking, embedding and persistence, true when it completes without raising) are function parameters.
- `Py` (file `py_values.dfy`) holds Python values, truthiness, `dict.get` and the exceptions raised. A collaborator's own exception is `Raised`. `Text` (file `text.dfy`) holds `str.isspace`/`str.strip() == ""`, `"\n".join`, `posixpath.basename`, `posixpath.join`, and the search for the closing quote used to read a query back.

## Model

| member | source | states |
|---|---|---|
| Chat.SplitTranscript | src/backend_src/services/chat.py:10-19 | An empty transcript raises IndexError. Otherwise the query is the last message's content and the history is every earlier message, in order, of length n-1; history plus the last message gives the transcript back. |
| Chat.TitlesOfEntries | src/backend_src/services/chat.py:43-45 | The kept titles are at most as many as the entries, and every one is truthy. The only exception is AttributeError, raised when a truthy entry is not a dict. |
| Chat.TitlesAppend | src/backend_src/services/chat.py:45 | Filtering a concatenation filters each part in turn, and the first exception wins. So the titles keep the order of their entries. |
| Chat.TitlesOkIff | src/backend_src/services/chat.py:45 | The comprehension raises exactly when some entry is truthy but not a dict. |
| Chat.TitlesMembership | src/backend_src/services/chat.py:45 | A value is a kept title exactly when some entry is a dict whose "title" is that value and truthy. |
| Chat.TitlesOfTitledEntries | src/backend_src/services/chat.py:45 | When every entry is a dict with a truthy "title", all titles are kept, in entry order, and there are as many titles as entries. |
| Chat.PapersList | src/backend_src/services/chat.py:30-45 | A falsy fetched value gives []. From a list there are at most as many titles as entries. Any other truthy value gives [] or raises. |
| Chat.GetAnswer | src/backend_src/services/chat.py:8-56 | An empty transcript raises IndexError and makes no call. Otherwise the first call classifies (query, history). There is at most one fetch call and at most one responder kickoff. The turn returns only when a responder was kicked off, and a kickoff is always the last call. A turn that kicked off a responder may still raise if that responder raises. |
| Chat.IntentRaises | src/backend_src/services/chat.py:21 | When the intent crew raises, the turn raises that exception, and the classification is its only call. |
| Chat.FetchGate | src/backend_src/services/chat.py:30-36 | Once the intent crew returns, the fetch step runs once when `intent.get("fetch")` is truthy and never otherwise. Its arguments are the intent's "queries" and "categories", each [] when missing. |
| Chat.FetchRaises | src/backend_src/services/chat.py:32-36 | A fetch that raises ends the turn with its exception. The fetch is the last call, and no responder is kicked off. The failure does not become an empty papers list. |
| Chat.RespondsOnce | src/backend_src/services/chat.py:37-54 | When a responder is kicked off, the intent crew and the fetch returned. The responder is the QA crew iff `use_rag` is truthy, and the turn returns or raises whatever that crew does. Its input carries the query and the history unchanged, `fetch` (default False), `request` (default ""), and the papers list of the fetched value. |
| Chat.NoFetchNoPapers | src/backend_src/services/chat.py:30-54 | Once the intent crew returns, without a fetch, or when the fetch returns a falsy value, exactly one responder is kicked off: the one `use_rag` selects, with the stage-two input whose papers list is empty. |
| Chat.PapersListRaises | src/backend_src/services/chat.py:45-54 | Once the intent crew and the fetch return, no responder is kicked off exactly when building `papers_list` raises, and the turn then raises that exception. |
| Text.JoinLinesBlank | src/agents_src/tools/fetch_paper_tool.py:80 | A `"\n"`-join is blank exactly when every joined piece is blank. |
| Text.Basename | src/agents_src/tools/fetch_paper_tool.py:111 | `os.path.basename` is the longest suffix without '/'. |
| Text.BasenameOfJoin | src/agents_src/tools/fetch_paper_tool.py:207-214 | Joining a directory with a name that has no '/' gives a path whose basename is that name. |
| ArxivTool.ExtractText | src/agents_src/tools/fetch_paper_tool.py:68-80 | The page loop returns the `"\n"`-join of the non-empty page texts in page order. A path that is not a file yields "". |
| ArxivTool.ExtractedTextEmpty | src/agents_src/tools/fetch_paper_tool.py:68-80 | The extracted text is "" exactly when no page has text. |
| ArxivTool.ExtractedTextBlank | src/agents_src/tools/fetch_paper_tool.py:68-80 | The extracted text is whitespace-only exactly when every page's text is. |
| ArxivTool.FileSystem.Remove | src/agents_src/tools/fetch_paper_tool.py:152-156 | `os.remove` removes a regular file the system lets go. Otherwise it fails and changes nothing. |
| ArxivTool.DocumentMetadata | src/agents_src/tools/fetch_paper_tool.py:101-112 | There are at most as many documents as paths. Every document comes from a listed path that is a file, and carries that file's non-blank extracted text, `source` = its path and `filename` = the basename. |
| ArxivTool.DocumentsAppend | src/agents_src/tools/fetch_paper_tool.py:101-112 | The documents of a concatenation are those of each part in turn, so path order is kept. |
| ArxivTool.DocumentsEmpty | src/agents_src/tools/fetch_paper_tool.py:101-113 | No document results exactly when no path contributes one. |
| ArxivTool.NoDocumentFor | src/agents_src/tools/fetch_paper_tool.py:103-109 | A path contributes nothing exactly when it is not a regular file or every one of its pages is blank. |
| ArxivTool.CollectDocuments | src/agents_src/tools/fetch_paper_tool.py:98-112 | The loading loop returns exactly the documents of the path list, in order. |
| ArxivTool.BuildStatus | src/agents_src/tools/fetch_paper_tool.py:83-162 | The status is always 0 or 1, and 0 only when a path list was given. |
| ArxivTool.AfterBuild | src/agents_src/tools/fetch_paper_tool.py:150-158 | No file appears or changes. On status 0 a file is gone exactly when it was listed and not locked. On status 1 nothing changes. |
| ArxivTool.NoDocumentsFails | src/agents_src/tools/fetch_paper_tool.py:113-115 | A non-empty list whose paths are all missing or blank returns 1, and no file is removed. |
| ArxivTool.BuildSucceeds | src/agents_src/tools/fetch_paper_tool.py:93-162 | Status 0 exactly when a list is given, the list is empty or some path yields a document, and the index build over the documents completes. |
| ArxivTool.RemoveStaged | src/agents_src/tools/fetch_paper_tool.py:150-156 | Every listed path that exists is removed where the system allows it. A refused removal is skipped, and nothing else changes. |
| ArxivTool.BuildVectorStoreFromDocuments | src/agents_src/tools/fetch_paper_tool.py:83-162 | Returns the status given by BuildStatus and leaves the files given by AfterBuild. Directories are unchanged. |
| ArxivTool.ValidateIntentUse | src/agents_src/tools/fetch_paper_tool.py:164-166 | A rejected dict raises ValidationError. An accepted one has a string "title", which becomes the title. Its "category" is a string, or missing and then "cs.AI", and becomes the category. |
| ArxivTool.ValidationFails | src/agents_src/tools/fetch_paper_tool.py:164-166 | `IntentUse(**intent)` raises exactly when "title" is missing or not a string, or "category" is present and not a string. |
| ArxivTool.SearchQuery | src/agents_src/tools/fetch_paper_tool.py:191 | The query `ti:"<title>" AND cat:<category>` is 14 characters longer than the title and the category together. QueryRoundTrip reads both back from it. |
| ArxivTool.CategoryDefault | src/agents_src/tools/fetch_paper_tool.py:164-191 | A dict argument without "category" resolves to category cs.AI, and the query becomes `ti:"<title>" AND cat:cs.AI`. |
| ArxivTool.QueryRoundTrip | src/agents_src/tools/fetch_paper_tool.py:191 | The title and the category can be read back from the query when the title has no double quote. |
| ArxivTool.DownloadedAt | src/agents_src/tools/fetch_paper_tool.py:204-208 | After the downloads, a result whose staged path no later result shares is found at `<dir>/<title>.pdf`. |
| ArxivTool.StagedDocument | src/agents_src/tools/fetch_paper_tool.py:204-214 | A downloaded result with a '/'-free title and a staged path of its own becomes the document with its text and `filename` `<title>.pdf`, unless its text is blank. |
| ArxivTool.DownloadAll | src/agents_src/tools/fetch_paper_tool.py:204-208 | The download loop writes every result, in order, to `<dir>/<title>.pdf`, with a later result overwriting an earlier one at the same path. It returns the titles in result order, and directories are unchanged. |
| ArxivTool.FetchPaperTool | src/agents_src/tools/fetch_paper_tool.py:168-215 | An invalid dict argument raises ValidationError. Otherwise the tool searches `ti:"<title>" AND cat:<category>` for at most 3 results. With no results it returns None and touches nothing. Otherwise it returns the result titles in order, whatever the build status, after downloading to `<docsDir>/<title>.pdf` and building over those paths in result order. |

## Left out

- The intent, QA and chitchat crews are opaque function fields of `Chat.Crews` that return a value or raise. Their prompts and LLM calls are not modelled. chat.py:2 imports `intent_crew` and `chitchat_crew` from crew.py, but crew.py defines only `qa_crew`. The two crews' definitions are not part of this model.
- `fetch_papers_and_ingest` is opaque (`Crews.fetchPapersAndIngest`), and it returns a value or raises. `get_answer` imports it, but fetch_paper_tool.py does not define it. So the query × category fan-out and the title deduplication are not part of this model.
- The `.to_dict()`/`dict()` normalisation of crew results (chat.py:23-27, 55) is left out. The intent and the answer are already dictionaries.
- Transcript messages are `ChatMessage` records with a role and a content. The KeyError that a message dict without "content" would raise is not modelled.
- Floating-point values in an intent are not among the modelled `Py.Value` kinds.
- Logging is left out.
- `os.path.expanduser` is treated as the identity. So the model does not capture that the loading loop expands `~` while the cleanup loop does not.
- The settings object (documents directory, store path, collection name) is left out. The documents directory is the `docsDir` parameter.
- The index build (`SimpleNodeParser` with 1024/50 chunks, HuggingFace embeddings, the Chroma client and collection) is the `Indexer` oracle. The contents of the persistent collection are not modelled.
- A PDF reader failure is modelled through the pages stored with a file. They are the pages read before the failure, which is what `_extract_text_from_pdf` joins; an unreadable file has no pages.
- The arXiv search is the `Search` oracle. The model records that 3 results are requested. It does not assume that the oracle returns at most 3.
- ArxivTool.FetchPaperTool: an arXiv search that raises (a network or API error while listing results, fetch_paper_tool.py:193-199) is not modelled, because `Search` always returns a list. Download and `mkdir` failures are not modelled either, so the exceptions they would raise out of the tool are not captured. These include a network error, a `docsDir` that is a regular file, a title with '/' pointing into a missing directory, and a staged path that is a directory. `FileSystem.Write` and `FileSystem.MakeDir` always succeed.
- ArxivTool.ValidateIntentUse accepts only string values for "title" and "category". Pydantic's other lax-mode coercions are not modelled.
- The commented-out directory-reader branch of `build_vector_store_from_documents` is dead code and is not modelled.
- Behaviour of the code worth noting, which the model keeps:
  - Staged files are removed only after a successful build, not after every attempt.
  - An empty path list is built over no documents and returns 0 when the build completes. It is not a failure.
  - A missing path list (`None`) always returns 1: the cleanup loop fails iterating over it.
  - The intent record is read with `dict.get` defaults rather than validated. "queries", "categories" and "request" are missing from the declared intent schema (check_intent_task.py:15-20).
