# Portfolio chatbot: a Dafny model of its core

The portfolio chatbot answers questions about one person's work through a pipeline of agents:

- An orchestrator routes the conversation.
- A professional-info agent gathers evidence. It uses a retrieve-and-rerank tool over a vector store of project documents.
- A final presentation agent streams the answer into a chat window.
- Two tools read the person's public Instagram and YouTube activity.
- Two ingestion pipelines turn PDF and Markdown files into the vector store's documents.

This project models that core in Dafny and proves properties of the model. Language models, HTTP, the vector database, file and PDF readers, text splitters, tracing and the clock do not appear as code. They are function-valued parameters whose results the model takes as given.

Modules, one per file:

| file | module | what it models |
|---|---|---|
| wrappers.dfy | Wrappers | `Option` and `Result` |
| text.dfy | Text | `"".join`, `sep.join`, `str.split` on one character, `str.strip`, `endswith`, `str.replace(pat, "")` |
| json.dfy | Json | JSON values, JSON string escaping and its decoding, the compact text `model_dump_json` writes |
| sorting.dfy | StableSort | `sorted(..., key=..., reverse=True)` on tuple keys: a stable sort, descending |
| pyrepr.dfy | PyRepr | `repr` of a string and `str` of a list of strings |
| paths.dfy | Paths | `Path(p).name` and `Path(p).suffix` |
| schemas.dfy | Schemas | the pydantic models the agents exchange (src/models/schemas.py) |
| retrieval.dfy | Retrieval | `retrieve_and_rerank` (src/tools/retrieval.py) |
| presentation.dfy | FinalPresentation | `_format_input` of the final presentation agent |
| runner.dfy | AgentRunner | `process_query` and `_format_professional_info_prompt` (src/agent_runner.py) |
| chat.dfy | ChatUI | `ChatbotUI.stream_response` (main.py), with the two chat histories as objects updated in place |
| documents.dfy | Documents | the `FileProcessor` of src/vector_store/processor.py and its copy in index.py, with documents as objects enriched in place, and `create_collection` |
| cleaning.dfy | TextCleaning | the five cleaning steps, the Markdown heading split and the blank-section filter of the indexing processor |
| indexing.dfy | Indexing | `FileProcessorForIndexing` (src/utils/file_proceessor_for_indexing.py, copied in src/utils/vector_store.py) and `VectorStore.get_vector_store` |
| social.dfy | SocialMedia | `get_instagram_posts` and `get_youtube_videos` (src/tools/social_media_retrieval.py) |

Where the source works by updating state, the model does the same. Each such method is proved equal to a specification function, and the properties are proved as lemmas about that function. This covers the loops of `process_query`, `stream_response`, `build_documents`, `_enrich_documents`, `process_all_files`, `chunk_all_files`, the Instagram paging loop, the YouTube paging and batch loops and the timestamp loops.

Behaviour of the source kept as written:

- **Refreshable YouTube credentials are refused.** The credential guard of `get_youtube_videos` is `not access_token or refresh_token or client_id or client_secret or token_uri`. It refuses to run whenever any refresh setting is present, so the refresh branch after it is never taken. `SocialMedia.Refused` is that guard. `SocialMedia.CompleteCredentialsRefused` shows that fully configured credentials are refused, and `GetYouTubeVideos` never refreshes.
- **Unsupported files fail the indexing run.** `__process_file` assigns `cleaned_text_sections` only for ".pdf" and ".md". Any other file raises `UnboundLocalError`, and so does `process_all_files`. The `continue` for unknown extensions in `chunk_all_files` therefore never sees such a file after a successful run.
- **Line breaks are removed before whitespace becomes a line break.** `__clean_text` drops unprintable characters first, and that includes "\n". As a result, the later collapse of blank lines acts only on line breaks that the whitespace step brought in (`TextCleaning.LineBreakJoinsLines`, `TextCleaning.SpacesBecomeLineBreak`).
- **Only the last record with a repeated video id gets statistics.** `video_map` keeps the last record for each id, and only that record is updated. An earlier record with the same id keeps no counts (`SocialMedia.EarlierDuplicateKeepsNoCounts`).
- **The two processor copies pick the format differently.** The bucket copy tests the path with `str.endswith`. The local copy uses `Path.suffix`. They disagree on a file named just ".pdf" and on a path with a trailing slash (`Documents.BareExtensionDiffers`, `Documents.TrailingSlashDiffers`).

## Model

| member | source | states |
|---|---|---|
| Text.ConcatSnoc | src/agent_runner.py:100-102 | appending a streamed fragment to the accumulated answer is concatenating the fragments seen so far |
| Text.ConcatAppend | main.py:67-68 | the answer of two runs of fragments is the first answer followed by the second |
| Text.JoinSplit | src/agents/final_presentation.py:99-106 | splitting a text on a character and joining with it again gives the text back |
| Text.SplitJoin | src/agents/final_presentation.py:99-106 | joining separator-free pieces with a separator and splitting again gives the pieces back |
| Text.BlankIffStripEmpty | main.py:45 | `not prompt or not prompt.strip()` holds exactly when every character is whitespace |
| Text.Strip | main.py:45 | the stripped text neither starts nor ends with whitespace, and it is what lies between a blank prefix and a blank suffix of the text |
| Text.StripExact | main.py:45 | for any text made of blank text, a part that neither starts nor ends with whitespace, and blank text, stripping gives exactly that part |
| Text.RemoveAll | src/utils/file_proceessor_for_indexing.py:71 | deleting the occurrences of a pattern never lengthens the text, and a text it does not shorten is unchanged |
| Text.RemoveAllAbsent | src/utils/file_proceessor_for_indexing.py:71 | a text in which the pattern does not occur is left as it is |
| Text.RemoveDashesLeading | src/utils/file_proceessor_for_indexing.py:71 | after deleting "---", a leading run of n dashes keeps n mod 3 of them |
| Text.RemoveDashesComplete | src/utils/file_proceessor_for_indexing.py:71 | after `replace("---", "")` the text holds no "---" |
| Text.RemoveAllChars | src/utils/file_proceessor_for_indexing.py:71 | deleting the occurrences of a pattern brings in no new character |
| Json.GetFinds | src/models/schemas.py:68-78 | a key is found in an object exactly when some member carries it, and then with the last such member's value |
| Json.UnescapeEscape | src/agent_runner.py:82 | decoding a string escaped as JSON gives the string back |
| Json.EscapeCharDecodes | src/agent_runner.py:82 | decoding the escape of one character gives that character, followed by the decoding of the rest |
| Json.RenderNoControl | src/agent_runner.py:82 | the compact JSON text of any value holds no control character |
| Json.RenderSingleLine | src/agents/final_presentation.py:89 | `model_dump_json()` writes no line break |
| Json.EscapeNoControl | src/agent_runner.py:94 | a JSON-escaped string holds no control character |
| StableSort.SortDesc | src/tools/retrieval.py:56 | `sorted(..., reverse=True)` returns a permutation of its input, in non-increasing key order |
| StableSort.SortDescStable | src/tools/social_media_retrieval.py:66-70 | for every key, the elements carrying it keep their input order |
| StableSort.Insert | src/tools/social_media_retrieval.py:166-170 | inserting into a sorted list keeps it sorted and adds exactly the element |
| StableSort.InsertWithKey | src/tools/social_media_retrieval.py:166-170 | an inserted element goes ahead of the elements that share its key, which keep their order |
| StableSort.LexLessTransitive | src/tools/social_media_retrieval.py:68 | Python's `<` on tuples of numbers is transitive |
| StableSort.LexTrichotomy | src/tools/social_media_retrieval.py:168 | any two tuples of numbers are equal, or one is less than the other |
| StableSort.LexGeTransitive | src/tools/retrieval.py:56 | Python's `>=` on tuples of numbers is transitive |
| PyRepr.QuoteFor | src/agents/final_presentation.py:102 | `repr` uses double quotes exactly when the text holds a single quote and no double quote |
| PyRepr.Repr | src/agents/final_presentation.py:102 | `repr` starts and ends with the quote it chose |
| PyRepr.UnreprRepr | src/agents/final_presentation.py:90-102 | reading back the body of `repr(s)` gives `s` |
| PyRepr.ReprCharDecodes | src/agents/final_presentation.py:102 | reading back the `repr` of one character gives that character, followed by what the rest reads as |
| PyRepr.HexNumHexN | src/agents/final_presentation.py:102 | a code written as fixed-width hexadecimal reads back as that code |
| PyRepr.ListRepr | src/agents/final_presentation.py:102 | `str([])` is "[]" |
| PyRepr.ListReprNoNewline | src/agents/final_presentation.py:90-102 | `str` of a list of strings is a single line |
| Paths.Name | src/vector_store/processor.py:68 | `Path(p).name` holds no slash |
| Paths.Suffix | index.py:150-156 | a non-empty suffix is a dot followed by at least one non-dot character, and the name ends with it and is longer than it |
| Paths.SuffixIs | index.py:150-156 | `Path(p).suffix` equals an extension exactly when the name ends with the extension and holds more than it |
| Paths.RFind | index.py:150 | the index found holds the character, and no later index does |
| Paths.TrailingSlashKeepsSuffix | index.py:150 | "data/cv.pdf/" does not end with ".pdf", yet its suffix is ".pdf" |
| Paths.BareExtensionHasNoSuffix | index.py:150 | "data/.pdf" ends with ".pdf", yet has no suffix |
| Paths.NameIgnoresTrailingSlash | index.py:103-106 | a trailing slash does not change the name |
| Schemas.AgentFromValue | src/models/schemas.py:11-15 | `DownstreamAgent(value)` accepts exactly the three agent values, each as the member written with it |
| Schemas.AgentValueRoundTrip | src/models/schemas.py:11-15 | every agent's value reads back as that agent |
| Schemas.SupportFromValue | src/models/schemas.py:18-22 | `Support(value)` accepts exactly "resume", "about_sanath" and "retrieve" |
| Schemas.SupportValueRoundTrip | src/models/schemas.py:18-22 | every support's value reads back as that support |
| Schemas.RouteRoundTrip | src/models/schemas.py:68-78 | a routing decision survives `model_dump` and validation |
| Schemas.BundleRoundTrip | src/models/schemas.py:108-125 | an evidence bundle survives `model_dump` and validation |
| Schemas.ReinterpretationRoundTrip | src/models/schemas.py:25-36 | a reinterpretation survives `model_dump` and validation |
| Schemas.RequestRoundTrip | src/models/schemas.py:39-52 | a downstream request survives `model_dump` and validation |
| Schemas.RequestsRoundTrip | src/models/schemas.py:77 | a list of downstream requests survives `model_dump` and validation |
| Schemas.RefusalRoundTrip | src/models/schemas.py:55-65 | a refusal directive survives `model_dump` and validation |
| Schemas.CoverageRoundTrip | src/models/schemas.py:81-92 | a coverage assessment survives `model_dump` and validation |
| Schemas.ClaimRoundTrip | src/models/schemas.py:95-105 | a claim survives `model_dump` and validation |
| Schemas.ClaimsRoundTrip | src/models/schemas.py:118 | a list of claims survives `model_dump` and validation |
| Schemas.StringsRoundTrip | src/models/schemas.py:89-92 | a list of strings survives `model_dump` and validation |
| Schemas.RefusalDefaults | src/models/schemas.py:63-65 | a refusal directive given only `needed` has no reason and the style "polite and humorous with redirect" |
| Schemas.RefusalNeedsNeeded | src/models/schemas.py:63 | a refusal directive without `needed` is rejected |
| Schemas.ReinterpretationDefaults | src/models/schemas.py:32-36 | a reinterpretation given only `needed` has no rewritten question |
| Schemas.RequestDefaults | src/models/schemas.py:47-52 | a request needs `agent` and `task`, and without `constraints` it has none |
| Schemas.RouteRequiresAll | src/models/schemas.py:76-78 | a routing decision validates only when all three of its fields are present |
| Schemas.CoverageRequiresBoth | src/models/schemas.py:88-92 | a coverage assessment needs both `sufficient` and `missing_points` |
| Schemas.BundleDefaults | src/models/schemas.py:117-125 | a bundle given only coverage and claims has no project leads and no redirect |
| Schemas.BundleRequires | src/models/schemas.py:117-118 | a bundle validates only when `coverage_assessment` and `claims` are present |
| Schemas.RequestsFromJson | src/models/schemas.py:77 | a validated list of requests has one request per item |
| Schemas.ClaimsFromJson | src/models/schemas.py:118 | a validated list of claims has one claim per item |
| Retrieval.RerankerInput | src/tools/retrieval.py:43-45 | the cross-encoder gets one (query, passage text) pair per retrieved passage, in order |
| Retrieval.Zip | src/tools/retrieval.py:53 | `zip` pairs passages with scores position by position and stops at the shorter list |
| Retrieval.RetrieveAndRerank | src/tools/retrieval.py:27-59 | the result is the texts of the ranked pairs, no more of them than were retrieved |
| Retrieval.Ranked | src/tools/retrieval.py:51-56 | there are no more ranked pairs than retrieved passages, highest score first |
| Retrieval.AboveMembers | src/tools/retrieval.py:51-55 | a pair survives the filter exactly when it was a candidate and scored strictly above the threshold |
| Retrieval.AboveMultiset | src/tools/retrieval.py:51-55 | each passing pair survives as many times as it was a candidate, and every other pair is dropped |
| Retrieval.RankedSortedAndAbove | src/tools/retrieval.py:51-56 | every ranked score is above the threshold, and the scores never increase |
| Retrieval.RankedIsPermutation | src/tools/retrieval.py:51-56 | the ranked pairs are exactly the passing candidates, with their multiplicities |
| Retrieval.TextsArePermutation | src/tools/retrieval.py:56-59 | the returned texts are exactly the texts of the passing candidates, with their multiplicities |
| Retrieval.RankedIsStable | src/tools/retrieval.py:56 | passages with equal scores keep their retrieval order |
| Retrieval.EmptyWhenNothingPasses | src/tools/retrieval.py:51-59 | when no score is above the threshold, the result is empty |
| FinalPresentation.EvidenceFields | src/agents/final_presentation.py:88-97 | there are four evidence values, and without a bundle each is "none" |
| FinalPresentation.CoverageField | src/agents/final_presentation.py:89 | with a bundle, the coverage value is the assessment's compact JSON, which reads back to the assessment and is never "none" |
| FinalPresentation.ProjectsField | src/agents/final_presentation.py:91 | with a bundle, the projects value is the project names joined by ", ", and it is "" exactly when the leads are missing, empty or one empty name; without a bundle it is "none" |
| FinalPresentation.ClaimTexts | src/agents/final_presentation.py:90 | each claim becomes its JSON text, in order |
| FinalPresentation.FormatLines | src/agents/final_presentation.py:99-106 | the input has six labelled lines |
| FinalPresentation.InputLines | src/agents/final_presentation.py:72-106 | splitting the input on line breaks gives back the six lines with the query, the evidence values and the refusal directive's JSON |
| FinalPresentation.EvidenceFieldsSingleLine | src/agents/final_presentation.py:88-97 | no evidence value holds a line break when the query, projects and redirect hold none |
| FinalPresentation.ClaimsLineReadsBack | src/agents/final_presentation.py:90-102 | each item of the claims line reads back to one claim's JSON text |
| FinalPresentation.RedirectField | src/agents/final_presentation.py:92 | a missing or empty redirect is written "none"; any other redirect is written as it is |
| AgentRunner.ProfessionalInfoPromptLines | src/agent_runner.py:119-123 | the prompt's lines are the query, the task, and the constraints, or "none" when they are missing or empty |
| AgentRunner.ProfessionalInfoPromptSplit | src/agent_runner.py:106-123 | the prompt reads back as its three lines when the query, task and constraints hold no line break |
| AgentRunner.FragmentEvents | src/agent_runner.py:101-103 | each streamed fragment becomes one final-presentation event carrying it |
| AgentRunner.GatherEvidence | src/agent_runner.py:85-97 | the evidence loop yields the events of the specification `Gather`, keeps the last bundle and stops at the first failing call |
| AgentRunner.StreamAnswer | src/agent_runner.py:99-103 | the streaming loop yields one event per fragment, and the final response is the fragments concatenated |
| AgentRunner.ProcessQuery | src/agent_runner.py:67-104 | `process_query` yields the events of `Pipeline` and ends as it does |
| AgentRunner.GatherFailsIff | src/agent_runner.py:85-94 | the evidence loop fails exactly when the agent raises on some professional-info request |
| AgentRunner.GatherEvents | src/agent_runner.py:85-97 | when every call succeeds, there is one event per professional-info request, carrying its bundle's JSON, and the bundle kept is the last one |
| AgentRunner.GatherStaysFailed | src/agent_runner.py:91-93 | once an agent call has raised, later requests change nothing |
| AgentRunner.OtherRequestsChangeNothing | src/agent_runner.py:95-97 | a public-persona or final-presentation request yields nothing and leaves the evidence as it was |
| AgentRunner.GatherEventSources | src/agent_runner.py:94 | every event of the evidence loop comes from the professional-info agent |
| AgentRunner.RouteEventFirst | src/agent_runner.py:81-82 | a query whose routing fails yields nothing; otherwise the routing event comes first and only once |
| AgentRunner.CompletedTrace | src/agent_runner.py:81-104 | a completed query had every professional-info call succeed, and its events are the route, the evidence events and the fragments' events |
| AgentRunner.CompletedAnswer | src/agent_runner.py:99-104 | in a completed query the presentation events come last, and the final response is their outputs concatenated |
| AgentRunner.Pipeline | src/agent_runner.py:67-104 | a query yields nothing exactly when routing fails, and it completes only when routing and every evidence call succeeded |
| AgentRunner.PresentationOutputsFragments | src/agent_runner.py:101-103 | the outputs of the fragments' events are the fragments |
| AgentRunner.FragmentsLast | src/agent_runner.py:99-103 | after events from other agents, the presentation outputs are exactly the fragments, and they come last |
| AgentRunner.PresentationFailureKeepsFragments | src/agent_runner.py:99-103 | when the presentation agent raises part way, the query fails, and the fragments it had already streamed stay in the events, last and in order |
| AgentRunner.AsWrittenNeverAnswers | src/agent_runner.py:99-103 | as written, every query fails, no presentation output is ever yielded, and what is yielded is the part of the streaming trace before the fragments |
| AgentRunner.PipelineAsWritten | src/agent_runner.py:99-103 | as written, a query never completes, and it yields nothing exactly when routing fails |
| ChatUI.History.Append | main.py:46 | `append` adds the message at the end and changes nothing else |
| ChatUI.History.SetLastContent | main.py:65 | `history[-1]["content"] = ...` changes only the content of the last message |
| ChatUI.ReplyToBlank | main.py:45-48 | a blank prompt gets the fixed reply in the window and is shown once |
| ChatUI.ShowPrompt | main.py:50-66 | the window gains the prompt and an emptied placeholder, the conversation gains the prompt, and the window is shown with the prompt and then with the placeholder |
| ChatUI.StreamResponse | main.py:29-74 | a blank prompt gets the fixed reply and leaves the conversation alone; any other prompt is answered from the agents' `Pipeline` for the conversation with the prompt: the window ends with the prompt and the concatenated presentation outputs, the conversation gains the answer only when the query completes, and the final response equals what was shown |
| ChatUI.AnswerPrompt | main.py:50-71 | the window gains the prompt and the answer, and the conversation gains the prompt, and the answer when the query completes; the window is shown with the prompt, then the placeholder, then once per presentation output, and a failed query reports that it raised |
| ChatUI.StreamChunks | main.py:65-69 | after each chunk the last message holds the chunks so far, and at the end it holds all of them |
| ChatUI.Progress | main.py:67-69 | there is one window per chunk, and the k-th shows the first k chunks concatenated |
| ChatUI.ProgressSnoc | main.py:67-69 | one more chunk adds exactly one window, showing every chunk so far |
| ChatUI.StreamResponseAsWritten | main.py:45-67 | as written, any non-blank prompt raises at the `process_query` call: the window keeps the prompt and an empty answer, and the conversation keeps the unanswered prompt |
| ChatUI.EveryTurnRaisesAsWritten | main.py:67-68 | with the session id supplied, every query still yields an event before anything else, or fails before yielding, so adding the event to a string raises |
| ChatUI.AnswerPromptAsWritten | main.py:64-69 | with the session id supplied, a non-blank prompt still raises: the window keeps the prompt and the emptied placeholder, the conversation keeps the unanswered prompt, and the window is sent only twice, so no answer text is ever shown |
| Documents.Snapshot | src/vector_store/processor.py:46-55 | the documents' contents, one per document, in order |
| Documents.MakeDocuments | src/vector_store/processor.py:67 | fresh, distinct documents with exactly the chunks the splitter returned |
| Documents.EnrichDocuments | src/vector_store/processor.py:70-98 | every document gets the prefix line in front of its text and the file's metadata merged into its own; nothing else changes |
| Documents.EnrichChunks | src/vector_store/processor.py:94-96 | each chunk gets the prefix line in front and the metadata merged in |
| Documents.EnrichedChunkReadsBack | src/vector_store/processor.py:95 | the first line of an enriched chunk is the prefix, and the rest is the original text |
| Documents.PrefixReadsBack | src/vector_store/processor.py:86-91 | the prefix lists the file name, then the tools, then the skills, one per space |
| Documents.UnconfiguredFile | src/vector_store/processor.py:83 | a file the configuration does not name is prefixed with its name alone, and its chunks' metadata is left as it was |
| Documents.PrefixOutcome | src/vector_store/processor.py:86-91 | the prefix line exists exactly when both metadata fields can be unpacked (otherwise `TypeError`), and it starts with the file name |
| Documents.FormatOf | src/vector_store/processor.py:112-119 | an unsupported file is a `ValueError`; the bucket copy accepts only paths ending with the format's extension, and the local copy (index.py:150-156) only names ending with it after a non-empty stem |
| Documents.ToMarkdown | src/vector_store/processor.py:100-119 | conversion fails exactly when the format is not recognised, and then with a `ValueError` |
| Documents.FileChunksOutcome | src/vector_store/processor.py:66-68 | a file yields chunks only when its format is recognised; an unrecognised format fails with its `ValueError`, and any other failure is the `TypeError` of a prefix part that cannot be joined |
| Documents.StringValueSpelledOut | src/vector_store/processor.py:88-89 | a string where a list is expected is unpacked character by character |
| Documents.NumberValueFails | src/vector_store/processor.py:88-89 | a number where a list is expected raises |
| Documents.DistinctKeys | src/vector_store/processor.py:96 | the keys of a JSON object, once each, are exactly the keys its members carry |
| Documents.BucketDispatch | src/vector_store/processor.py:112-119 | the bucket copy accepts a path exactly when it ends with ".pdf" or ".md", and otherwise raises `ValueError` naming the path |
| Documents.LocalDispatch | index.py:150-156 | the local copy accepts a path exactly when its suffix is ".pdf" or ".md", and otherwise raises `ValueError` naming the suffix |
| Documents.EndingsDisjoint | src/vector_store/processor.py:112-117 | no path ends with both ".md" and ".pdf" |
| Documents.VariantsAgree | index.py:138-156 | where the name holds more than the extension, both copies pick the same format |
| Documents.BareExtensionDiffers | index.py:150-156 | a file named ".pdf" is a PDF for the bucket copy and unsupported for the local one |
| Documents.TrailingSlashDiffers | src/vector_store/processor.py:112-119 | "data/cv.pdf/" is unsupported for the bucket copy and a PDF for the local one |
| Documents.SlashEndingIsNoExtension | src/vector_store/processor.py:112-116 | a path ending in a slash ends with neither extension |
| Documents.ProcessFile | src/vector_store/processor.py:57-68 | `_process_file` fails as the conversion fails, or returns fresh documents holding the file's enriched chunks |
| Documents.BuildDocuments | src/vector_store/processor.py:46-55 | `build_documents` fails with the first failing file, or returns documents holding every file's chunks in listing order |
| Documents.ExtendDocuments | index.py:89-92 | one turn of the loop extends the documents with the next file's documents |
| Documents.CreateCollection | index.py:231-251 | without a processor configuration it raises `ValueError`; otherwise it hands over exactly what `build_documents` returns |
| Documents.CollectAppend | src/vector_store/processor.py:52-54 | the documents of two listings are those of the first followed by those of the second, and the first failure wins |
| Documents.CollectFailure | src/vector_store/processor.py:52-54 | a listing succeeds exactly when every file does, and a failure is that of its first failing file |
| Documents.CollectPlaces | src/vector_store/processor.py:52-54 | each file's documents sit after those of the files listed before it |
| Documents.CollectFailsFrom | src/vector_store/processor.py:52-54 | once a prefix of the listing fails, the whole listing fails the same way |
| TextCleaning.KeepPrintableExact | src/utils/file_proceessor_for_indexing.py:66 | the first step keeps exactly the printable characters, so no line break or tab survives it |
| TextCleaning.KeepPrintable | src/utils/file_proceessor_for_indexing.py:66 | the kept text is no longer than the input and holds only printable characters |
| TextCleaning.CollapseSpaces | src/utils/file_proceessor_for_indexing.py:68 | the second step never lengthens the text |
| TextCleaning.CollapseSpacesSeparates | src/utils/file_proceessor_for_indexing.py:68 | after the second step no two whitespace characters are neighbours |
| TextCleaning.CollapseSpacesKeepsText | src/utils/file_proceessor_for_indexing.py:68 | the second step changes whitespace only |
| TextCleaning.CollapseSpacesChars | src/utils/file_proceessor_for_indexing.py:68 | the second step brings in no character but the line break |
| TextCleaning.ImageRecognised | src/utils/file_proceessor_for_indexing.py:15 | a link `![alt](target)` is matched whole |
| TextCleaning.ImageAt | src/utils/file_proceessor_for_indexing.py:15 | an image match is a non-empty prefix of the text |
| TextCleaning.TitledImageRecognised | src/utils/file_proceessor_for_indexing.py:15 | a link `![alt](target "title")` is matched whole |
| TextCleaning.RemoveImages | src/utils/file_proceessor_for_indexing.py:69 | removing images never lengthens the text |
| TextCleaning.RemoveImagesChars | src/utils/file_proceessor_for_indexing.py:69 | the third step only deletes characters |
| TextCleaning.NoImagesUnchanged | src/utils/file_proceessor_for_indexing.py:69 | text with no '!' is left as it is |
| TextCleaning.CollapseNewlinesShape | src/utils/file_proceessor_for_indexing.py:70 | after the fourth step no two line breaks are neighbours, and the text without its line breaks is unchanged |
| TextCleaning.CollapseNewlines | src/utils/file_proceessor_for_indexing.py:70 | the fourth step never lengthens the text |
| TextCleaning.CleanText | src/utils/file_proceessor_for_indexing.py:65-73 | cleaning never lengthens the text |
| TextCleaning.CollapseNewlinesChars | src/utils/file_proceessor_for_indexing.py:70 | the fourth step brings in no new character |
| TextCleaning.CleanTextChars | src/utils/file_proceessor_for_indexing.py:65-73 | a cleaned text holds only printable characters and line breaks |
| TextCleaning.LineBreakJoinsLines | src/utils/file_proceessor_for_indexing.py:66-70 | "ab\ncd" is cleaned to "abcd": the line break is dropped as unprintable |
| TextCleaning.SpacesBecomeLineBreak | src/utils/file_proceessor_for_indexing.py:68 | "ab  cd" is cleaned to "ab\ncd" |
| TextCleaning.Find | src/utils/file_proceessor_for_indexing.py:15 | the index found is the first one at or after the start that holds the character |
| TextCleaning.HeadingSplitShape | src/utils/file_proceessor_for_indexing.py:17 | the pieces put back together give the text; there is a cut in front of every heading line and nowhere else, and the first piece is empty when the text starts with a heading |
| TextCleaning.SegmentsConcat | src/utils/file_proceessor_for_indexing.py:58 | the pieces of a text from a position on put back together give that part of the text |
| TextCleaning.SegmentsCuts | src/utils/file_proceessor_for_indexing.py:58 | every piece after the first starts where a heading line starts |
| TextCleaning.SegmentsWhole | src/utils/file_proceessor_for_indexing.py:17 | no heading line starts strictly inside a piece, so every heading line gets a cut in front of it |
| TextCleaning.SegmentsUnique | src/utils/file_proceessor_for_indexing.py:58 | any cut of the text that puts the pieces back into the text, cuts in front of every heading line and nowhere else, leaves no empty piece after the first, and leaves an empty first piece when the text starts with a heading, is the one the split computes |
| TextCleaning.HeadingSplitExact | src/utils/file_proceessor_for_indexing.py:58 | the split meets that description of `re.split` with the lookahead pattern, and it is the only sequence of pieces that does |
| TextCleaning.HeadingSplit | src/utils/file_proceessor_for_indexing.py:58 | the split is never empty, and its pieces put back together give the text |
| TextCleaning.NonBlankMembers | src/utils/file_proceessor_for_indexing.py:62 | the kept sections are exactly the non-blank ones |
| TextCleaning.NonBlankAppend | src/utils/file_proceessor_for_indexing.py:62 | the kept sections stay in their order |
| TextCleaning.CleanAll | src/utils/file_proceessor_for_indexing.py:62 | every section is cleaned, in order |
| TextCleaning.CleanSections | src/utils/file_proceessor_for_indexing.py:61-63 | there are no more cleaned sections than sections, and each is the cleaned text of a non-blank section |
| TextCleaning.CleanSectionsAppend | src/utils/file_proceessor_for_indexing.py:61-63 | cleaning two lists of sections one after the other is cleaning them together |
| TextCleaning.BlankSectionDropped | src/utils/file_proceessor_for_indexing.py:62 | a blank section leaves no trace |
| Indexing.ProcessFileAccepts | src/utils/file_proceessor_for_indexing.py:39-48 | a file is processed exactly when its suffix is ".pdf" or ".md"; any other file raises `UnboundLocalError` for `cleaned_text_sections` |
| Indexing.ProcessFile | src/utils/file_proceessor_for_indexing.py:39-48 | a file is processed exactly when its suffix is ".pdf" or ".md"; any other file raises `UnboundLocalError` for `cleaned_text_sections` |
| Indexing.MarkdownSections | src/utils/file_proceessor_for_indexing.py:55-59 | a Markdown file becomes the cleaned non-blank pieces of `HeadingSplit(text)`, the cut of its text in front of every heading line and nowhere else; any cut with that description gives the same result |
| Indexing.Assign | src/utils/file_proceessor_for_indexing.py:35 | `d[k] = v` keeps the keys distinct, appends a new key and keeps an existing key in its place |
| Indexing.AssignLookup | src/utils/file_proceessor_for_indexing.py:35 | after `d[k] = v`, `d[k]` is `v` and every other key reads as before |
| Indexing.Lookup | src/utils/file_proceessor_for_indexing.py:77 | a key is found exactly when the dict holds it |
| Indexing.LookupAt | src/utils/file_proceessor_for_indexing.py:77 | each entry is found under its own path |
| Indexing.ProcessAllWith | src/utils/file_proceessor_for_indexing.py:31-37 | the dict built holds each path once |
| Indexing.ProcessAll | src/utils/file_proceessor_for_indexing.py:31-37 | the run succeeds exactly when every listed file is processed, and the dict holds each path once |
| Indexing.ProcessAllSucceeds | src/utils/file_proceessor_for_indexing.py:34-35 | the run succeeds exactly when every file is processed |
| Indexing.ProcessAllEntries | src/utils/file_proceessor_for_indexing.py:31-37 | a successful dict holds exactly the listed paths, each with its file's sections |
| Indexing.ProcessAllInOrder | src/utils/file_proceessor_for_indexing.py:33-35 | with distinct paths, the dict has one entry per path, in listing order |
| Indexing.ProcessAllFailsFrom | src/utils/file_proceessor_for_indexing.py:34-35 | once a prefix of the files fails, the whole run fails the same way |
| Indexing.ProcessAllFiles | src/utils/file_proceessor_for_indexing.py:31-37 | the loop builds exactly the dict `ProcessAll` describes |
| Indexing.Wrap | src/utils/file_proceessor_for_indexing.py:92-98 | one document per chunk text, each carrying the metadata |
| Indexing.SectionDocsAppend | src/utils/file_proceessor_for_indexing.py:90-98 | documents come in section order |
| Indexing.SectionDocsChunks | src/utils/file_proceessor_for_indexing.py:90-98 | a document is produced exactly when it is a chunk of some section carrying the file's metadata |
| Indexing.EntryDocsOutcome | src/utils/file_proceessor_for_indexing.py:77-98 | an unknown extension gives no documents; a file missing from the data configuration raises `KeyError`; PDFs are split with (2090, 200) and Markdown with (1172, 0) |
| Indexing.EntryDocs | src/utils/file_proceessor_for_indexing.py:77-98 | the only failure is the `KeyError` of a file name missing from the data configuration |
| Indexing.ChunkAllAppend | src/utils/file_proceessor_for_indexing.py:77-98 | documents come in dict order, and the first failing entry decides the failure |
| Indexing.ChunkAllSucceeds | src/utils/file_proceessor_for_indexing.py:77-98 | the run succeeds exactly when every entry does |
| Indexing.ChunkAllFailsFrom | src/utils/file_proceessor_for_indexing.py:77-98 | once a prefix of the entries fails, the whole run fails the same way |
| Indexing.ChunkAll | src/utils/file_proceessor_for_indexing.py:75-100 | the run succeeds exactly when every entry's documents can be built |
| Indexing.ChunkSections | src/utils/file_proceessor_for_indexing.py:90-98 | the nested loops build exactly `SectionDocs` |
| Indexing.ChunkEntry | src/utils/file_proceessor_for_indexing.py:78-98 | one pass of the outer loop builds exactly `EntryDocs` |
| Indexing.ChunkAllFiles | src/utils/file_proceessor_for_indexing.py:75-100 | the loop builds exactly the documents `ChunkAll` describes |
| Indexing.CreateStore | src/utils/vector_store.py:28-40 | the create branch never loads an existing collection |
| Indexing.GetVectorStore | src/utils/vector_store.py:18-26 | the collection "sanath_projects_latest" is loaded exactly when it exists, and otherwise it is built from every file |
| SocialMedia.FollowUrls | src/tools/social_media_retrieval.py:56-64 | at most four `next` links are followed |
| SocialMedia.FollowUrlsChain | src/tools/social_media_retrieval.py:54-64 | the links followed form the chain of `next` links from the first page, none of them empty, and fewer than four are followed only when the chain ends |
| SocialMedia.FetchAllPosts | src/tools/social_media_retrieval.py:52-64 | the loop follows exactly the chain's links and gathers the first page's posts followed by every followed page's posts |
| SocialMedia.NormalizedPosts | src/tools/social_media_retrieval.py:72-73 | succeeds exactly when `normalize_timestamp` accepts every timestamp, and then every post gets its timestamp normalized and nothing else changes; a failure carries a timestamp it rejects |
| SocialMedia.NormalizedPostsRejects | src/tools/social_media_retrieval.py:72-73 | the first timestamp `datetime.fromisoformat` rejects decides the ValueError |
| SocialMedia.NormalizedPostsRanked | src/tools/social_media_retrieval.py:66-73 | when normalizing succeeds it keeps the ranking keys and the order |
| SocialMedia.NormalizePostTimestamps | src/tools/social_media_retrieval.py:72-73 | the loop builds exactly `NormalizedPosts`, stopping at the first rejected timestamp |
| SocialMedia.GetInstagramPosts | src/tools/social_media_retrieval.py:22-78 | without a token it returns the error and sends no request; otherwise it requests the account, the media and the chain's pages, and returns the gathered posts ranked by (likes, comments) with timestamps normalized, or the ValueError of a rejected timestamp |
| SocialMedia.InstagramRanking | src/tools/social_media_retrieval.py:66-70 | the ranked posts are a permutation of the gathered posts, non-increasing in (likes, comments), with ties in their gathered order |
| SocialMedia.ToVideos | src/tools/social_media_retrieval.py:132-141 | one record per playlist item, in order |
| SocialMedia.PlaylistVideosUnique | src/tools/social_media_retrieval.py:124-145 | the records do not depend on the bound used to show that the paging ends |
| SocialMedia.AppendVideos | src/tools/social_media_retrieval.py:132-141 | the inner loop appends exactly the page's records |
| SocialMedia.PlaylistVideos | src/tools/social_media_retrieval.py:124-145 | every record's URL is the watch URL of its video id, and no record has counts yet |
| SocialMedia.FetchPlaylist | src/tools/social_media_retrieval.py:121-145 | the paging loop gathers the records of every page of the playlist, page after page |
| SocialMedia.IndexMap | src/tools/social_media_retrieval.py:147 | `video_map` sends each id to a record with that id, and never to an earlier record than any other with that id |
| SocialMedia.DistinctIds | src/tools/social_media_retrieval.py:148 | `all_ids` holds each id of the playlist exactly once |
| SocialMedia.DistinctIdsInOrder | src/tools/social_media_retrieval.py:147-148 | with no repeated id, `all_ids` lists the ids in playlist order |
| SocialMedia.Batches | src/tools/social_media_retrieval.py:150-151 | every batch holds one to fifty ids |
| SocialMedia.BatchesPartition | src/tools/social_media_retrieval.py:150-151 | the batches cover every id once and in order; each holds one to fifty ids and all but the last hold fifty |
| SocialMedia.ApplyStats | src/tools/social_media_retrieval.py:157-164 | applying a response keeps the number of records |
| SocialMedia.ApplyStatsEffect | src/tools/social_media_retrieval.py:157-164 | a response applies exactly when all its ids are known, and then each record keeps its playlist fields and the records no item points to stay unchanged; otherwise the first unknown id raises `KeyError` |
| SocialMedia.ApplyStatsLastWins | src/tools/social_media_retrieval.py:157-164 | a response applies exactly when all its ids are known, and then the record an item updates ends with that item's view, comment and like counts, each missing count being 0, unless a later item updates the same record |
| SocialMedia.WithStats | src/tools/social_media_retrieval.py:160-164 | the update keeps the playlist fields and sets all three counts: the response's count when present, 0 when the count or the whole statistics object is missing |
| SocialMedia.AllStats | src/tools/social_media_retrieval.py:150-164 | updating across batches keeps the number of records |
| SocialMedia.ApplyStatsAppend | src/tools/social_media_retrieval.py:150-164 | applying two responses in turn is applying their items in one pass, stopping at the first unknown id |
| SocialMedia.AllStatsItems | src/tools/social_media_retrieval.py:150-164 | the batch loop is one pass over the items of every response, batch after batch |
| SocialMedia.AllStatsEffect | src/tools/social_media_retrieval.py:150-164 | the batch loop raises `KeyError` exactly when some response item names an unknown id; otherwise every record keeps its playlist fields, the record the last item for it updates ends with that item's view, comment and like counts (a missing count being 0), and a record no item updates, among them any record `video_map` does not keep, is unchanged |
| SocialMedia.EarlierDuplicateKeepsNoCounts | src/tools/social_media_retrieval.py:147-164 | a record followed later by one with the same id is left exactly as the playlist gave it |
| SocialMedia.KeptRecordsGetStats | src/tools/social_media_retrieval.py:147-164 | when the loop completes, the record `video_map` keeps for an id ends with the view, comment and like counts of the last response item for that id, each missing count being 0 |
| SocialMedia.ApplyStatsLoop | src/tools/social_media_retrieval.py:157-164 | the loop over one response computes exactly `ApplyStats` |
| SocialMedia.FetchStatistics | src/tools/social_media_retrieval.py:150-164 | the batch loop computes exactly `AllStats` over the batches, and when it completes it has requested exactly the batches |
| SocialMedia.NormalizedVideos | src/tools/social_media_retrieval.py:172-173 | succeeds exactly when `normalize_timestamp` accepts every publication time, and then every record gets its publication time normalized and nothing else changes; a failure carries a time it rejects |
| SocialMedia.NormalizedVideosRejects | src/tools/social_media_retrieval.py:172-173 | the first publication time `datetime.fromisoformat` rejects decides the ValueError |
| SocialMedia.NormalizedVideosRanked | src/tools/social_media_retrieval.py:166-173 | when normalizing succeeds it keeps the ranking |
| SocialMedia.NormalizeVideoTimestamps | src/tools/social_media_retrieval.py:172-173 | the loop builds exactly `NormalizedVideos`, stopping at the first rejected time |
| SocialMedia.GetYouTubeVideos | src/tools/social_media_retrieval.py:81-178 | refused credentials give "Could not retrieve any content.", no channel gives "No channel found", otherwise exactly `RankedVideos` of the first channel (ranked videos, the statistics `KeyError`, or the timestamp `ValueError`); credentials are never refreshed |
| SocialMedia.Refused | src/tools/social_media_retrieval.py:95-96 | the guard lets a call through only with an access token, and refuses whenever any of the four refresh settings is set |
| SocialMedia.RankedVideos | src/tools/social_media_retrieval.py:147-178 | past the two guards the result is never an error message: it is the `KeyError` of an unknown id, the `ValueError` of a publication time `normalize_timestamp` rejects, or the channel's videos, as many as the playlist gave, ranked by views, likes and comments from high to low |
| SocialMedia.UndatedVideoFails | src/tools/social_media_retrieval.py:140-173 | a playlist item without `publishedAt` is recorded with "", and since `datetime.fromisoformat("")` raises, such a playlist never yields ranked videos: the result is the `KeyError` or the `ValueError` |
| SocialMedia.RejectedSurvivesRanking | src/tools/social_media_retrieval.py:166-173 | ranking drops no record, so a rejected publication time makes the timestamp loop fail |
| SocialMedia.YouTubeRanking | src/tools/social_media_retrieval.py:166-170 | the ranked videos are a permutation of the updated records, non-increasing in (views, likes, comments), with ties in playlist order |

## Findings

| source | as written | input that shows it | evidently intended | confidence | as-written member | corrected member |
|---|---|---|---|---|---|---|
| src/agent_runner.py:99-103 | `async for` runs over `final_presentation.run(...)`, a coroutine function that returns one `str` (src/agents/final_presentation.py:38-70), so the loop raises TypeError before the language model is called | any query whose routing and professional-info calls succeed: the route and evidence events are yielded, then TypeError | the answer is streamed fragment by fragment and concatenated into the final response | high, not executed | AgentRunner.AsWrittenNeverAnswers | AgentRunner.CompletedAnswer |
| main.py:67 | `process_query(prompt, conversation)` omits the required `session_id` (src/agent_runner.py:67), so the call raises TypeError | any non-blank prompt, such as "hi" | a session id is passed and the query runs | high, not executed | ChatUI.StreamResponseAsWritten | ChatUI.StreamResponse |
| main.py:68 | `chatbot[-1]["content"] += chunk` adds an `AgentEvent` to a `str`, which raises TypeError at the first event | any non-blank prompt with the session id supplied, such as "hi" with a routing agent that answers | the text of each final-presentation event is appended, and other events are not shown | medium, not executed; the event classes `process_query` yields are not defined in src/models/schemas.py, so this holds only if they are not `str` | ChatUI.EveryTurnRaisesAsWritten | ChatUI.StreamChunks |

The rest of the model uses the corrected behaviour: `AgentRunner.Pipeline` streams the presentation, and `ChatUI.StreamResponse` answers from it.

## Left out

- Language models, the orchestrator, professional-info and public-persona agents, and their prompts and instruction loading: each agent is a function parameter. Their structured output is taken as already parsed.
- HTTP, the Google API client, the Qdrant client, embeddings, the upload of documents to the vector store and `__get_vector_store`/`__create_vector_store`'s client calls: the responses are function parameters. `raise_for_status` and network errors are not modelled.
- asyncio concurrency: the two Instagram requests issued with `asyncio.gather` are modelled as sent one after the other. `async for` streaming is modelled as a sequence of fragments.
- Tracing with Langfuse and `propagate_attributes`: they do not change what is yielded.
- The Gradio interface (`build_interface` and the widgets): only `stream_response` is modelled, and the interactive state of the textbox is not.
- `random.choice` of the thinking message: an index given by the caller.
- Reranker scores are floating point in the source and integers here.
- `str.isprintable` on characters outside ASCII, from Unicode's tables: a parameter.
- `normalize_timestamp`: a parameter `Normalizer`, since it calls `datetime` parsing and time zones. It is partial: `None` stands for the ValueError `datetime.fromisoformat` raises, and both timestamp loops end in that ValueError. Which texts it rejects is not modelled. `UndatedVideoFails` takes as a hypothesis that it rejects "", the `publishedAt` default of social_media_retrieval.py:140.
- `json.dumps` of the tool results: the model returns the structured result, not its text.
- The PDF converter, the Markdown header splitter, `RecursiveCharacterTextSplitter` and reading files: parameters.
- Reading `data_config.json` and the metadata configuration: their content is a parameter. Metadata entries are assumed to be JSON objects.
- Python dict iteration order for metadata updates: metadata is a map, so the order in which keys were merged is not kept.
- Documents.EnrichDocuments: requires the documents to be distinct objects, because the documents the splitter returns are fresh. The source would apply the prefix twice to a document listed twice.
- Indexing.ChunkAllFiles: every document of a file shares one metadata dict in the source. The model gives each document an equal copy, so a later mutation through one document is not modelled.
- `__clean_text_sections` returns a generator: the model computes the list it yields, once.
- `Path.suffix` as of Python 3.14, which gives a name ending in a single dot (such as "notes.") the suffix ".", is not modelled: the model gives such a name no suffix, as earlier versions do. In both, a name made only of a dot and an extension (".pdf") has no suffix.
- KeyError on fields the APIs are expected to return (`username`, `media_count`, `timestamp`, `snippet`, `contentDetails`): the model's records always hold them. Only the `video_map[vid_id]` lookup, whose failure depends on what the model computes, raises in the model.
- `int(...)` of the YouTube counts: the counts are integers in the responses.
- SocialMedia.FetchPlaylist: termination of the `while True` paging loop is assumed through `ChainEnds`, that is, the playlist's chain of page tokens ends. A playlist whose pages never end is not modelled.
- Duplicated code: the indexing processor in src/utils/vector_store.py lines 51-141 repeats src/utils/file_proceessor_for_indexing.py and is modelled once. Likewise, index.py's `FileProcessor` repeats src/vector_store/processor.py, and only their differences get members of their own.
- The orchestrator's `run` is declared to take the user's message as a `str` (src/agents/orchestrator.py:35), but `process_query` hands it the conversation list (src/agent_runner.py:81). The model follows the call site: the routing agent is a function of the conversation.
- The public-persona branch of `process_query` only prints "Public persona agent not yet implemented" (src/agent_runner.py:95-97). The model keeps the branch's effect on the trace and the evidence (none) and leaves out the console output.
- ChatUI.StreamResponse: the UI updates and the agent calls interleave in the source, since each `yield` of `process_query` is consumed before the next agent call. The model computes the query's events first and then replays them into the window, which gives the same windows and histories but not the timing.
- ChatUI.StreamResponse: the textbox states and `gr.skip()` of each update are not modelled; `shown` records only the chat windows.
- The agent events: src/agent_runner.py:10 imports `AgentEventUnion`, `OrchestratorEvent`, `ProfessionalInfoEvent`, `FinalPresentationEvent` and `AgentSource` from src/models/schemas.py, which defines none of them. As written, that import raises ImportError, and so does main.py, which imports the runner at main.py:11. The model reconstructs `AgentSource` and `AgentEvent(source, output)` from the constructor calls at src/agent_runner.py:82, :94 and :103, and assumes an event is not a `str`.
- The settings classes (`VectorStoreConfig`, `ProcessorConfig`), `read_secret` and `__main__` blocks: configuration reading.
