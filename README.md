# Feynman tutor backend: prompt engine, chat turn and library tables

This project models two pieces of a Feynman-method tutoring server and proves properties of them.

1. **The prompt engine** (`backend/feynman_prompts.py`). It has ten learning phases with fixed string values. `get_prompt_for_phase` looks the phase up in a table of fragment builders, falls back to a default fragment, and returns the base prompt, a blank line and the fragment. Each fragment splices the context's concept, original question, knowledge level and weak points into fixed wording. The module `FeynmanPrompts` models this as pure functions:
   - the fixed wording is held in a `Wording` record (`Engine` carries the real text);
   - the lemmas hold for any wording, so they speak only of the context-dependent splices.
2. **The server** (`backend/server.py`):
   - **The WebSocket chat turn.** A received frame may request a phase transition. Otherwise it carries a message, which is stored first. In the HOME phase the message starts a lesson: the raw message becomes the concept and the phase becomes knowledge_check. In every other phase the turn:
     - searches the room's PDF;
     - builds the instruction and the prompt;
     - streams the generation endpoint's answer;
     - stores the answer only when the stream ends normally.

     `ChatTurn.Step` is this turn as a function over the room row, the room's message log and whether the connection is open. `ChatConnection.Conversation` is the same loop as a class whose methods update those fields in place. Each of its methods is proved equal to the step function.
   - **The turn's helpers:**
     - keyword clean-up (`ConceptKeyword`);
     - the reference block and the final prompt (`PromptAssembly`);
     - the stream fold (`ResponseStream`);
     - Bearer-header parsing in `get_current_user` (`BearerAuth`).
   - **The table operations** (`Library.Store`, a class over maps from ids to rows): room lookup with 404 before 403, room deletion, deletion of several rooms with its count, `initialize_learning`, the PDF upload guards, the PDF listing, PDF deletion (unlinking rooms), PDF move, folder deletion (re-rooting PDFs) and linking a PDF to a room.

External services are parameters or per-turn oracle values. These are:
- the prompt engine's fixed wording (`ChatTurn.Services.engine`; the server's is `FeynmanPrompts.Engine`, and the turn's properties hold for any wording);
- the phase flow `flow_manager.get_next_phase`;
- the retrieval index `has_pdf` / `search_by_pdf`;
- the keyword model's reply;
- the generation endpoint's status, lines and late error;
- JWT decoding;
- the clock;
- the outcome of the database commit and of indexing.

Rows follow `backend/models.py`. `Records.Flush` models the `onupdate` of `chat_rooms.updated_at`: a flushed change to a room row refreshes `updated_at`.

Files:
- `common.dfy`: `Base` (Option, Result) and `PyStr` (the Python string built-ins the server uses: `strip`, `split`, `split('\n')[0]`, `str(int)`, slicing);
- `feynman_prompts.dfy`;
- `records.dfy`;
- `keyword.dfy`;
- `auth.dfy`;
- `library.dfy`;
- `prompt_assembly.dfy`;
- `stream.dfy`;
- `turn.dfy`;
- `conversation.dfy`.

## Model

| member | source | states |
|---|---|---|
| FeynmanPrompts.ParsePhaseInvertsValue | backend/feynman_prompts.py:5-16 | the ten phase strings are pairwise distinct: parsing a phase's value yields that phase and only that value parses to it |
| FeynmanPrompts.TableCoverage | backend/feynman_prompts.py:36-44 | the builder table holds exactly the seven phases other than HOME, QUESTION_INPUT and RETRY, and never maps to the default, home or question-input builders |
| FeynmanPrompts.Dispatch | backend/feynman_prompts.py:46 | the default builder is chosen iff the phase is HOME, QUESTION_INPUT or RETRY; `_home_prompt` and `_question_input_prompt` are never chosen |
| FeynmanPrompts.PromptFor | backend/feynman_prompts.py:33-49 | for any wording, every instruction starts with base prompt + blank line and is longer than that (the bare base prompt is unreachable); it fails iff the phase is AI_EXPLANATION and the concept is None (`len(None)`) |
| FeynmanPrompts.GetPromptForPhase | backend/feynman_prompts.py:33-49 | the same two facts for the engine's own wording |
| FeynmanPrompts.EngineFallbackDistinct | backend/feynman_prompts.py:51-53 | the default fragment is nonempty and shorter than every other fixed fragment |
| FeynmanPrompts.FallbackPhases | backend/feynman_prompts.py:46-53 | the instruction is base prompt + default fragment iff the phase is HOME, QUESTION_INPUT or RETRY |
| FeynmanPrompts.AnchorInsertion | backend/feynman_prompts.py:72-250 | when the original question is present and differs from the concept, the KNOWLEDGE_CHECK, AI_EXPLANATION and EVALUATION instructions are the instructions without it plus one inserted note or hint; in every other phase or context the question changes nothing |
| FeynmanPrompts.AnchorInKnowledgeCheck | backend/feynman_prompts.py:74-83 | in KNOWLEDGE_CHECK the `(원본 질문: "…")` note is inserted at one place |
| FeynmanPrompts.AnchorInAiExplanation | backend/feynman_prompts.py:142-148 | in AI_EXPLANATION the context hint is inserted at one place |
| FeynmanPrompts.AnchorInEvaluation | backend/feynman_prompts.py:247-250 | in EVALUATION the note is appended to the subject line |
| FeynmanPrompts.AnchorIgnored | backend/feynman_prompts.py:36-49 | without an anchor, or in a phase other than KNOWLEDGE_CHECK, AI_EXPLANATION and EVALUATION, removing the original question leaves the instruction unchanged |
| FeynmanPrompts.MaterialFramingOpens | backend/feynman_prompts.py:127-133 | a concept longer than 50 characters gets the study-material framing |
| FeynmanPrompts.TopicFramingOpens | backend/feynman_prompts.py:134-140 | a concept of at most 50 characters does not get the study-material opening, and opens with the study-topic line instead |
| FeynmanPrompts.AiTextFraming | backend/feynman_prompts.py:127-140 | the AI fragment opens with the study-material framing iff the concept is longer than 50 characters, and with the study-topic line otherwise |
| FeynmanPrompts.AiTextHasTitle | backend/feynman_prompts.py:165 | the AI fragment contains the title line naming the concept |
| FeynmanPrompts.AiExplanationFraming | backend/feynman_prompts.py:119-165 | with a string concept the AI explanation succeeds, opens with the study-material framing iff the concept is longer than 50 characters and with the study-topic line otherwise, and names the concept in its title |
| FeynmanPrompts.LevelLineParts | backend/feynman_prompts.py:150-153 | the level line contains the level and the weak-points text |
| FeynmanPrompts.AiTextHasLevelLine | backend/feynman_prompts.py:150-153 | the AI fragment contains the level line |
| FeynmanPrompts.AiExplanationPersonalised | backend/feynman_prompts.py:123-153 | the AI explanation contains the level, defaulting to 'beginner'; it contains the weak points joined with ", " (each one appears) or '전반적 이해 필요' when there are none |
| FeynmanPrompts.EvaluationNamesConcept | backend/feynman_prompts.py:287 | the evaluation contains the `개념: "…"` line for the concept |
| FeynmanPrompts.ContextDependence | backend/feynman_prompts.py:92-117 | only AI_EXPLANATION reads the level and weak points; FIRST_EXPLANATION, SELF_REFLECTION_1, SECOND_EXPLANATION and SELF_REFLECTION_2 give the same output for every context |
| Records.Flush | backend/models.py:34 | a flushed room row equals the assigned values with `updated_at` refreshed to the flush time unless it was assigned; an unchanged row is not touched |
| ConceptKeyword.CleanKeywordShape | backend/server.py:250-254 | the cleaned keyword occurs in the reply, is one line and has no quote at either end |
| ConceptKeyword.ExtractConceptKeyword | backend/server.py:248-262 | a non-200 reply, a failed call or an empty cleaned text gives the user's message back; otherwise the result is the cleaned first line |
| ConceptKeyword.CleanKeywordRecovers | backend/server.py:250-254 | a keyword wrapped in blanks and quotes, followed by further lines, is recovered exactly |
| ConceptKeyword.KeywordLine | backend/server.py:250-252 | stripping, taking the first line and stripping again leaves the quoted keyword |
| BearerAuth.BearerSchemeIsCaseVariant | backend/server.py:184 | `scheme.lower() == 'bearer'` holds iff the scheme is "bearer" in some mix of cases |
| BearerAuth.ParseAuthorization | backend/server.py:177-191 | a missing or empty header gives "Not authenticated"; a header that is not exactly two whitespace-separated words gives "Invalid authorization header"; a wrong scheme gives "Invalid authentication scheme"; otherwise the token is the second word, nonempty and blank-free |
| BearerAuth.ParseAuthorizationRoundTrip | backend/server.py:182-186 | a bearer scheme, a space and a blank-free token parse back to that token |
| BearerAuth.GetCurrentUser | backend/server.py:170-213 | header errors propagate; success iff the token decodes to a subject that is a known user; "Invalid token" is never reported |
| BearerAuth.BearerTokenAccepted | backend/server.py:193-211 | a bearer header whose token decodes to a subject yields that user, or "User not found" |
| Library.RoomAccess | backend/server.py:414-418 | 404 iff the room is missing, 403 iff it exists and belongs to someone else, the row otherwise |
| Library.OwnedRoom | backend/server.py:578-585 | the owner-filtered lookup: the row iff it exists and is the caller's, 404 otherwise |
| Library.OwnedPdf | backend/server.py:748-754 | the owner-filtered PDF lookup: the row iff it exists and is the caller's, "PDF not found" otherwise |
| Library.ForeignRoomStatus | backend/server.py:578-585 | another user's room gets 403 from the messages and delete lookups but 404 from the owner-filtered lookups of `initialize_learning` and `link_pdf_to_room` |
| Library.Store.GetMessages | backend/server.py:402-423 | the lookup's error, or the room's messages in order |
| Library.Store.DeleteRoom | backend/server.py:430-451 | the lookup's error, or the room and its messages removed; nothing else changes and consistency is kept |
| Library.FolderTargetAsWritten | backend/server.py:621-627 | the folder check as written accepts "" without a lookup and stores it |
| Library.NormalizeFolder | backend/server.py:815 | None and "" both mean the root |
| Library.FolderTarget | backend/server.py:803-811 | the corrected check: the root for None or "", otherwise the caller's existing folder or the given 404 |
| Library.FolderTargetAgrees | backend/server.py:621-627 | for every target other than "" the corrected check is the check as written |
| Library.ListPdfs | backend/server.py:694-712 | a PDF is listed iff it is the caller's and sits at the root (for None or "root") or in the named folder |
| Library.EveryPdfListed | backend/server.py:694-712 | in a consistent library every PDF of the caller whose folder is the root is listed |
| Library.EmptyFolderIdDangles | backend/server.py:621-663 | as written, uploading into folder "" leaves a dangling folder reference and the PDF is listed in no folder and not at the root |
| Library.EmptyFolderIdIsRoot | backend/server.py:621-663 | with the corrected check the new PDF resolves and is listed at the root |
| Library.UnlinkPdf | backend/server.py:757-766 | the bulk update keeps the set of rooms |
| Library.UnlinkPdfLeavesNoLink | backend/server.py:757-766 | after unlinking, no room refers to the deleted PDF, and every room that referred to it was the caller's and was unlinked |
| Library.UnlinkPdfFrame | backend/server.py:757-766 | rooms not linked to the PDF are unchanged; linked rooms lose the link and get a refreshed `updated_at` |
| Library.Reroot | backend/server.py:864-870 | the bulk update keeps the set of PDFs |
| Library.RerootLeavesNoFolder | backend/server.py:864-870 | after re-rooting every PDF in the folder is at the root, every other PDF is unchanged and all folder references resolve without the folder |
| Library.DeleteSweepCounts | backend/server.py:463-469 | exactly the caller's existing rooms among the ids are deleted; the count is the number of such rooms with autoflush, and the number of positions naming one without it |
| Library.DistinctIdsCountOnce | backend/server.py:463-469 | with distinct ids, autoflush makes no difference |
| Library.RepeatedIdCountedTwice | backend/server.py:463-469 | a repeated id of an owned room is counted once with autoflush and twice without |
| Library.Store.DeleteMultipleRooms | backend/server.py:456-475 | the loop returns the sweep's count and removes exactly the caller's listed rooms and their messages |
| Library.MeasureUpload | backend/server.py:638-649 | reading in 1 MiB chunks accepts a file iff it is at most 50 MiB, returning its size, and rejects it with the size error otherwise |
| Library.Store.UploadPdf | backend/server.py:607-692 | the upload checks, in order: suffix, then folder (the corrected check, so a folder id of "" is stored as the root), then size, then commit; a row is added iff it is committed; an indexing failure after the commit leaves the row and reports 500 |
| Library.Store.DeletePdf | backend/server.py:741-784 | "PDF not found" or: linked rooms unlinked, PDF row removed, the number of unlinked rooms returned, consistency kept |
| Library.Store.MovePdf | backend/server.py:786-816 | PDF 404 first, then target-folder 404, otherwise the PDF's folder becomes the normalized target (the corrected check, so "" moves the PDF to the root) |
| Library.Store.DeleteFolder | backend/server.py:849-873 | "Folder not found" unless it is the caller's; otherwise its PDFs are re-rooted and the folder removed |
| Library.Store.LinkPdfToRoom | backend/server.py:898-927 | room 404 first, then PDF 404, otherwise the room's `pdf_id` is set and `updated_at` refreshed |
| Library.Store.InitializeLearning | backend/server.py:570-604 | room 404, or the raw concept stored and the phase set to knowledge_check, returning the extracted keyword |
| Library.Store.constructor | backend/models.py:26-43 | a store over consistent tables |
| ResponseStream.AccumulateStream | backend/server.py:1118-1137 | the loop's chunks and ending are the fold of the lines, and the answer is their concatenation |
| ResponseStream.FoldIsTextsThroughDone | backend/server.py:1118-1137 | reading fails iff a line up to the first done record raises; otherwise the chunks are the response strings of those lines, and it finishes iff there is a done record |
| ResponseStream.FoldIgnoresRest | backend/server.py:1133-1134 | once reading has stopped, later lines do not matter |
| ResponseStream.FoldSkipsNoise | backend/server.py:1119-1137 | blank and undecodable lines can be dropped without changing anything |
| ResponseStream.ConcatSnoc | backend/server.py:1124 | `ai_response += chunk` extends the concatenation by the chunk |
| PromptAssembly.BuildReferenceBlock | backend/server.py:993-996 | the loop builds the header followed by each hit's entry in order, or nothing for no hits |
| PromptAssembly.HitTextShape | backend/server.py:996 | a hit's entry names file and page, keeps at most 200 characters of content and ends with "...\n\n" |
| PromptAssembly.ReferenceBlockLists | backend/server.py:993-996 | the block is empty iff there are no hits, starts with the header otherwise and contains every hit's entry |
| PromptAssembly.Retrieval | backend/server.py:985-999 | a search happens iff the room has a truthy `pdf_id` the index holds, with the raw message and 5 results; the block is nonempty iff that search returns hits |
| PromptAssembly.FullPromptShape | backend/server.py:1091-1094 | the prompt starts with the instruction and a blank line and ends with the user's turn; a nonempty block plus blank line is the only insertion |
| ChatTurn.ServerContext | backend/server.py:1074-1079 | the server never passes an original question, so the anchor branches are unreachable from a turn |
| ChatTurn.StreamFrames | backend/server.py:1126-1130 | one stream frame per chunk, in order |
| ChatTurn.Connect | backend/server.py:942-946 | a missing room sends the error and ends; otherwise the session opens on the row |
| ChatTurn.StepKeepsOtherColumns | backend/server.py:956-1183 | a turn changes only the room's phase, concept and `updated_at` |
| ChatTurn.StepAppendsOnly | backend/server.py:1005-1146 | the log only grows, by at most two messages, and only for a message-carrying frame |
| ChatTurn.MessageStoredFirst | backend/server.py:1005-1016 | the user's message is stored first, tagged with the phase, as an explanation iff the phase is FIRST_EXPLANATION or SECOND_EXPLANATION; a generation request is the turn's last call |
| ChatTurn.MissingMessageIgnored | backend/server.py:975-982 | a payload without "message" sends "Invalid message format" and changes nothing |
| ChatTurn.UnparsableCloses | backend/server.py:952 | a frame that is not a JSON object ends the connection, after which nothing happens |
| ChatTurn.ClosedStaysClosed | backend/server.py:948-1190 | a closed connection sends, stores and calls nothing |
| ChatTurn.HomeTurnEffects | backend/server.py:1019-1064 | a HOME message stores the raw message as concept, sets knowledge_check, stores and streams one reply containing the keyword and makes no generation call |
| ChatTurn.StatusErrorNamesStatus | backend/server.py:1111-1116 | a generation request refused with a status other than 200 is answered with an error frame that identifies the status: two such statuses give the same frames iff they are equal |
| ChatTurn.AnswerStoredIffComplete | backend/server.py:1108-1183 | outside HOME an answer is stored iff the status is 200 and the stream ends without error; it is then the concatenated response strings up to the first done record, streamed chunk by chunk and followed by "complete" |
| ChatTurn.RequestsUseRawMessage | backend/server.py:985-1094 | the only search is over the room's PDF with the raw message, and the generation prompt ends with the user's turn |
| ChatTurn.TransitionSetsNextPhase | backend/server.py:956-972 | a transition stores the flow's next phase, sends it and leaves the log alone |
| ChatTurn.NoEvaluationStored | backend/server.py:1068-1160 | no learning evaluation is ever stored: the analysis exists only in explanation phases, never in EVALUATION |
| ChatTurn.RunAppendsOnly | backend/server.py:948-1183 | over a whole connection the log only grows |
| ChatTurn.RunWithSplit | backend/server.py:948-1183 | handling two stretches of frames in turn is handling them together |
| ChatTurn.RunSnoc | backend/server.py:948-1183 | handling one more frame extends the outcome by that frame's step |
| ChatTurn.RunStopped | backend/server.py:948-1190 | once the connection has closed, or the frames have run out, the outcome of the whole sequence is the outcome so far |
| ChatTurn.ReplyFacts | backend/server.py:1019-1183 | after the user's message is stored, the reply keeps the room's other columns, adds at most one message and makes at most one call |
| ChatTurn.ReplyCalls | backend/server.py:1019-1094 | the reply never searches, and a prompt it sends ends with the user's turn |
| ChatConnection.Conversation.constructor | backend/server.py:942-948 | the connection opens on the found room with its log |
| ChatConnection.Conversation.HandleFrame | backend/server.py:949-1183 | the new fields, frames sent and calls made are those of `ChatTurn.Step` |
| ChatConnection.Conversation.Transition | backend/server.py:956-972 | as `ChatTurn.TransitionTurn` |
| ChatConnection.Conversation.HandleMessage | backend/server.py:975-1183 | as `ChatTurn.MessageTurn`: the search with the raw message and the reference-block loop, the stored user message, then the reply |
| ChatConnection.Conversation.Reply | backend/server.py:1019-1183 | as `ChatTurn.ReplyTurn`: a HOME turn, or the instruction (the connection ends when it cannot be built), the prompt and the generation |
| ChatConnection.Conversation.StartLesson | backend/server.py:1019-1064 | one keyword request for the raw message, then the room, log and frames of `Greet` with the extracted keyword |
| ChatConnection.Conversation.Greet | backend/server.py:1023-1064 | the raw message becomes the concept, the phase becomes knowledge_check and `updated_at` is refreshed; one assistant reply with the keyword is stored, and phase change, reply and completion are sent, in that order |
| ChatConnection.Conversation.Generate | backend/server.py:1086-1183 | as `ChatTurn.GenerateTurn`, with the stream loop |
| ChatConnection.Conversation.Serve | backend/server.py:948-1183 | the receive loop does what `ChatTurn.Run` says for the frames received |

## Left out

- I/O is not modelled: HTTP to the generation and keyword endpoints, WebSocket send and receive, the IP probe, CORS and static files. Replies, answers and received frames are inputs; sent frames and outgoing requests are output sequences.
- `learning_flow`, `evaluation_system`, `rag_system` and `auth` are not part of this model. `get_next_phase`, `has_pdf` and `search_by_pdf` are function parameters. JWT decoding is a function parameter. The truthiness of `analyze_explanation` is a parameter of `ChatTurn.StoresEvaluation`.
- The `instruction` and `title` fields of "phase_changed" frames (from `flow_manager`) are left out of `OutFrame`.
- The `analyze_explanation` call is not listed among a turn's calls. Only its consequence is modelled: no evaluation is ever stored.
- The two long answer-layout templates (AI explanation and evaluation) are stand-in constants. The lemmas hold for any wording, and all splice delimiters are exact.
- Each turn reads the clock once. `datetime.utcnow()` on distinct lines of one turn gives the same time in the model.
- Frames whose "message" or "choice" is not a string are not modelled. Search hits without the expected keys are not modelled.
- An exception from `has_pdf` or `search_by_pdf` is not modelled; in the code it would reach the outer handler and end the connection.
- A failing commit is not modelled. The commits at backend/server.py:964, :1016, :1026 and :1050 lie outside the inner `try`, so a failure there would end the connection. The answer's commit at backend/server.py:1148 lies inside the inner `try` (backend/server.py:1086-1171), so a failure there would send an "Error: …" frame after the streamed chunks, and the receive loop would go on.
- An unknown stored phase string, or a None concept in AI_EXPLANATION, ends the connection (`Session.open` becomes false). The log keeps whatever was already committed.
- File writes, `os.remove` and PyPDF2 are not modelled. The page count is a parameter.
- Library.MeasureUpload: reads are modelled as full 1 MiB chunks except the last. The file's size is the input.
- Query ordering by `created_at` is not modelled. Logs are kept in insertion order.
- Library.ListPdfs: returns a set, so the `uploaded_at` descending order of `list_pdfs` is not modelled.
- Library.Store.UploadPdf: implements the corrected folder check (`Library.FolderTarget`), so a folder id of "" is stored as the root, where the code as written stores "". The as-written behaviour is `Library.FolderTargetAsWritten` and `Library.EmptyFolderIdDangles` (see "## Findings"). `Library.Store.Valid` relies on the correction: with "" stored, a PDF would name a folder that does not exist.
- Library.Store.MovePdf: implements the same corrected check, so moving to "" puts the PDF at the root, where the code as written assigns "".
- Concurrency across connections is not modelled.
- BearerAuth.Lower: lower-cases ASCII letters only. Python's `str.lower` is Unicode-wide, but "bearer" is ASCII, so acceptance is the same.
- Library.DeleteSweepCounts: `database.py` is not part of this model. Whether the session autoflushes is a parameter, and the count is stated for both settings.
- The migration scripts are not modelled. The remaining CRUD endpoints are not modelled: create, list, rename, usage, quizzes and login/registration.
- Where the design description and the code disagree, the model follows the code:
  - the HOME turn stores the raw message as the concept, not the extracted keyword;
  - the phase is assigned directly on a HOME turn;
  - there is no retrieval query planner and no knowledge-level classifier;
  - `original_question` and `knowledge_level` are never written by a turn;
  - a missing "sub" is reported as "Could not validate credentials", because the `except Exception` around it catches the "Invalid token" error.
- ChatConnection.Conversation: its methods are stated through `old`, so their contracts are tied to `ChatTurn`. The properties are proved there.

## Findings

| source | as written | input that shows it | evidently intended | confidence | as-written member | corrected member |
|---|---|---|---|---|---|---|
| backend/server.py:621 | `if folder_id:` skips the folder lookup for the empty string, and `folder_id=folder_id` then stores "" (the same holds for `move_pdf` at backend/server.py:803-811) | upload with `folder_id=""` | "" means the root, as `move_request.folder_id or 'Root'` at backend/server.py:815 reads it | not executed | Library.EmptyFolderIdDangles | Library.EmptyFolderIdIsRoot |
