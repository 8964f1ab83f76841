# Interview preparation app: a verified model of its decision logic

This project models the decision logic of an interview-preparation web application in Dafny
and proves properties of that model. The application has a Flask backend and a React frontend.
A user signs in and fills an intake form (name, company, role, résumé). The backend then
generates résumé, role and company interview questions in the background, along with a résumé
analysis and a quiz. The frontend shows these on a set of pages.

The model covers:

- **Backend** (`backend.dfy`, `backend_store.dfy`). The request handlers of the Flask app
  over an in-memory database `Backend.Db`. Each handler is a function from the database and
  the request to an `Outcome`: the new database, the JSON reply with its HTTP status, and the
  background job it starts. Background threads are separate explicit steps on the database.
  The class `BackendStore.Database` performs each handler in place, on fields. Each of its
  methods is proved to leave exactly the state the matching function computes.
- **Client** (`client.dfy`). How a reply reaches a page: a non-2xx status makes the call
  throw, and the page reads fields of the JSON body.
- **Pages and components**, one file each: the root component and its route table
  (`app.dfy`), the route guard (`protected_route.dfy`), the quiz (`quiz.dfy`), a question
  card (`qa_card.dfy`), the role-question page (`role_qa.dfy`), the intake form
  (`input_form.dfy`), the résumé-analysis page (`resume_analysis.dfy`), the dashboard
  (`dashboard.dfy`) and the page frame (`layout.dfy`).
  - Each is a module with a state datatype, step functions and lemmas.
  - Each also has a companion `…Component` module whose class holds the React state as
    fields. Its handler methods are proved to update those fields exactly as the step
    functions say.
  - Several lemmas in each file connect the page to the backend: they run the backend
    handler, pass its reply through the client, and state what the page then shows.
- **Helpers.**
  - `storage.dfy` models browser storage as `map<string, string>`, together with JavaScript's
    `Number#toString` and `parseInt`.
  - `text.dfy` holds string helpers.
  - `wrappers.dfy` holds `Option`, `Result` and JavaScript truthiness of an optional string.

Inputs that come from outside the code are parameters of the model: language-model answers,
web searches, file text extraction, fetch outcomes and window widths. Timers and intervals are
explicit steps.

## Model

| member | source | states |
|---|---|---|
| Backend.AllowedFile | backend/app.py:105-106 | a name is accepted exactly when it has a '.' and the text after the last '.', lower-cased, is pdf, doc or docx |
| Backend.ExtractorFor | backend/app.py:108-115 | a path ending in pdf goes to the PDF extractor and one ending in doc or docx to the docx extractor; any other ending fails with the message "Unsupported file type: " followed by the extension |
| Backend.UploadKeepsFinalSegment | backend/app.py:414-420 | prefixing the upload folder and user id keeps the text after a filename's last '.', so the saved file has the extension that was checked |
| Backend.AllowedUploadHasExtractor | backend/app.py:414-420 | a file that allowed_file accepts, once saved under its upload path, always has an extractor, and the PDF one exactly when its own extension is pdf |
| Backend.AllowedFileAgreesWithDispatch | backend/app.py:105-115 | for a name with a '.', allowed_file accepts exactly the names the extractor dispatch accepts |
| Backend.KeptLinks | backend/app.py:171-176 | the kept organic links are never more than the results, and none is empty or on the blocked site |
| Backend.KeptLinksAppend | backend/app.py:173-176 | filtering distributes over concatenation, so the kept links keep the search order |
| Backend.KeptLinksExact | backend/app.py:173-176 | a link is kept exactly when it is among the results and usable |
| Backend.CollectLinks | backend/app.py:171-182 | the collected links are the usable organic links in order, then the usable knowledge-graph website |
| Backend.UsableLink | backend/app.py:173-176 | the condition a link must meet to be kept: present, non-empty and not on the blocked site |
| Backend.GraphLink | backend/app.py:178-182 | the knowledge-graph website, kept under the same condition as the organic links |
| Backend.UserInput | backend/app.py:385-442 | a request missing any of the five fields gets a 400 and changes nothing; the reply is 202 exactly when the fields are present, any résumé passes the check and extraction, and the email is not another user's; on 202 the user is created or updated with the given fields, questions_generated is reset, the résumé text is stored, every other user is unchanged, and the question job starts |
| Backend.UpsertUser | backend/app.py:402-412 | the user has the given name, email, company and role, with questions_generated reset; an existing user keeps every other field, and a new one starts without résumé text and not pro |
| Backend.UploadPath | backend/app.py:416-417 | the name a résumé is saved under: the upload folder, the user id, '_' and the original name |
| Backend.TypedRows | backend/app.py:249-251 | one row per question of a type |
| Backend.TypedRowsAt | backend/app.py:249-251 | row k holds the k-th question of the type, unanswered, owned by the user and numbered first id + k |
| Backend.GroupRowsSnoc | backend/app.py:248-251 | adding one more group appends its rows, numbered after the earlier ones |
| Backend.GroupRowsNumbered | backend/app.py:248-251 | the saved rows number as many as the groups hold, and are numbered consecutively, owned by the user and unanswered |
| Backend.SavedRowsCount | backend/app.py:247-252 | save_questions_to_db stores exactly as many rows as the three sets hold questions |
| Backend.SavedRowsBlocks | backend/app.py:247-252 | the rows are the résumé questions, then the role ones, then the company ones |
| Backend.FirstTwoGroups | backend/app.py:248-251 | the first two groups' rows are the first group's rows followed by the second's |
| Backend.AppendQuestionRows | backend/app.py:250-252 | appending rows numbered from the next id, and advancing it past them, keeps the question keys increasing and below the next id |
| Backend.SaveQuestions | backend/app.py:247-252 | the database gains exactly the saved rows, all owned by the user and unanswered; the keys stay valid and nothing else changes |
| Backend.ProcessQuestions | backend/app.py:351-383 | the database changes exactly when the user exists and all three generated sets are non-empty; it then holds the saved rows, the questions_generated flag, and a completed analysis when the user has résumé text and a role and the analyser succeeded |
| Backend.StatusFields | backend/app.py:455-459 | questionsGenerated is 1 and status 'complete' exactly when the flag is set, otherwise 0 and 'pending' |
| Backend.QuestionStatus | backend/app.py:445-459 | a missing userId gets a 400 and an unknown user a 404; otherwise the reply is 200 with the status fields of the user's flag |
| Backend.UserProfile | backend/app.py:497-524 | the reply needs both userId and email (400) and a known user (404); a 200 carries the user, with is_new_user exactly when questions are not generated |
| Backend.Matching | backend/app.py:629-636 | the listed questions are never more than the rows |
| Backend.MatchingExact | backend/app.py:629-636 | a question is listed exactly when its row belongs to the user and has the requested type |
| Backend.GetQuestions | backend/app.py:614-640 | a missing userId and a type outside resume, company and role get a 400; the reply is 200 exactly for a known user and a valid type, and lists that user's questions of that type in row order |
| Backend.FindQuestion | backend/app.py:567-569 | the lookup finds the row with the given id, or reports that no row has it |
| Backend.FindQuestionAfterAnswer | backend/app.py:578-579 | storing an answer does not change which row a lookup finds |
| Backend.GenerateAnswer | backend/app.py:565-580 | an unknown question gets a 404; a stored truthy answer is returned without regenerating; a question whose user is gone, or whose answer generator raises, gets a 500 with nothing stored; otherwise the model's answer is stored and returned; the keys stay valid |
| Backend.AnswerIsMemoised | backend/app.py:565-580 | once a non-empty answer has been returned, every later call for the same question returns it again and changes nothing, whatever the model would say now |
| Backend.LatestAnalysis | backend/app.py:653 | the lookup finds the user's most recent analysis row, or reports that the user has none |
| Backend.GetResumeAnalysis | backend/app.py:642-680 | a missing userId gets a 400 and an unknown user a 404; with no analysis a pending row is stored, the job starts and the reply is 202 pending; a pending analysis gets 202, a failed one 500, and a completed one 200 with the latest row's score, improvements and strong points, storing nothing |
| Backend.ProcessResumeAnalysis | backend/app.py:682-699 | when the analyser succeeds for a user with résumé text and a role, a completed analysis is appended; otherwise the latest analysis is marked failed; users, questions and quizzes are untouched |
| Backend.MarkLatestFailed | backend/app.py:690-698 | only the analyses change, and their number does not; the user's latest analysis, if any, is now failed, and no other user's analysis state changes |
| Backend.LatestSameOwners | backend/app.py:653 | which analysis is a user's latest depends only on whose each row is |
| Backend.LatestAfterAppend | backend/app.py:653 | a freshly appended analysis is the user's latest |
| Backend.ResumeAnalysisLifecycle | backend/app.py:642-699 | for a user without an analysis: the first request stores a pending row and starts the job, and later requests answer pending and change nothing; after the job, the reply is the completed analysis (200) exactly when the analyser succeeded for a user with résumé text and a role, and the failure reply (500) otherwise |
| Backend.QuizzesOf | backend/app.py:792 | the listed quizzes are the user's own rows, and the list is empty exactly when the user has none |
| Backend.GenerateQuizQuestions | backend/app.py:776-829 | a missing userId gets a 400 and an unknown user a 404; a user with the flag and quiz rows gets the list; otherwise a set flag is reset and the reply is 'in_progress' when generation is marked in progress, else 'started', with the job started |
| Backend.QuizRows | backend/app.py:759-771 | one quiz row per generated question, numbered consecutively and owned by the user |
| Backend.QuizBackground | backend/app.py:831-848 | for a known user with a generated quiz, the rows are appended, and the flag is set when the quiz is non-empty; the request session's in-progress marks are untouched |
| Backend.EndRequest | backend/app.py:812-821 | the attributes set on the request's session are discarded with it |
| Backend.FreshRequestNeverInProgress | backend/app.py:812-818 | in a fresh request the in-progress reply is never given |
| Backend.QuizRequestResetsProfile | backend/app.py:806-809 | asking for the quiz before it exists resets questions_generated, so the profile check then reports the user as new and the question status as pending |
| Backend.QuizCompletedIsStable | backend/app.py:791-805 | once a non-empty quiz has been generated, the quiz endpoint lists it and changes nothing |
| BackendStore.Database.constructor | backend/app.py:44-101 | the store starts empty, with valid keys |
| BackendStore.Database.UserInput | backend/app.py:385-442 | the fields end as Backend.UserInput computes, and the reply and job are the same |
| BackendStore.Database.AddTypedRows | backend/app.py:249-251 | the inner loop appends the rows of one type and advances the next id; nothing else changes |
| BackendStore.Database.SaveQuestionsToDb | backend/app.py:247-252 | the nested loop leaves the store as Backend.SaveQuestions computes, with valid keys |
| BackendStore.Database.ProcessQuestions | backend/app.py:351-383 | the store ends as Backend.ProcessQuestions computes |
| BackendStore.Database.GenerateAnswer | backend/app.py:565-580 | the store and reply are as Backend.GenerateAnswer computes |
| BackendStore.Database.GetResumeAnalysis | backend/app.py:642-680 | the store, reply and job are as Backend.GetResumeAnalysis computes |
| BackendStore.Database.ProcessResumeAnalysis | backend/app.py:682-699 | the store ends as Backend.ProcessResumeAnalysis computes |
| BackendStore.Database.GenerateQuizQuestions | backend/app.py:776-829 | the store, reply and job are as Backend.GenerateQuizQuestions computes |
| BackendStore.Database.GenerateQuizQuestionsBackground | backend/app.py:831-848 | the store ends as Backend.QuizBackground computes |
| BackendStore.Database.EndRequest | backend/app.py:812-821 | the session's in-progress marks are discarded |
| Client.Receive | frontend/src/utils/api.js:61-65 | a call yields the parsed body exactly when the status is 2xx, and throws otherwise |
| Client.SuccessFieldOfReplies | backend/app.py:445-524 | the profile, status and question-list replies carry success: true exactly when they are 200 |
| Client.SuccessField | frontend/src/App.js:45 | how a page reads `success` from a body: false for an error or answer body, the flag of a message body, true for the other replies |
| ProtectedRoute.Guard | frontend/src/components/ProtectedRoute.js:5-14 | nothing is rendered while the session loads; otherwise the route carries the caller's props unchanged and the wrapped component |
| ProtectedRoute.Render | frontend/src/components/ProtectedRoute.js:15-21 | a signed-in user gets the component with the router props unchanged; anyone else is redirected to "/" |
| ProtectedRoute.LoadedGuardDecides | frontend/src/components/ProtectedRoute.js:5-24 | once loaded, what the guard renders depends only on whether a user is signed in |
| App.FirstMatch | frontend/src/App.js:74-106 | the chosen route is the first one in the table that matches the path, and no route matches when none is chosen |
| App.Matches | frontend/src/App.js:74-106 | the router's match rule: an exact route needs the path itself, any other route also matches below its path after a '/' |
| App.Screen | frontend/src/App.js:67-117 | the spinner shows while the session loads or the profile check runs; "/" shows the landing page; signed out, every other path redirects to "/"; signed in, the first matching route of the table shows its page, with the navbar, and an unmatched path goes to the fallback |
| App.IntakeGate | frontend/src/App.js:80-82 | signed in without a profile, /input-form and paths below it show the intake form, and every other path redirects to /input-form |
| App.ProfilePathsAreSegments | frontend/src/App.js:85-95 | every path of the profile table is a single segment |
| App.ProfilePathsDistinct | frontend/src/App.js:85-95 | no two paths of the profile table are equal |
| App.SegmentsDoNotNest | frontend/src/App.js:85-95 | a one-segment route matches no other one-segment path |
| App.SlashAfterPrefix | frontend/src/App.js:85-95 | a path below a prefix has a '/' right after the prefix |
| App.ProfileGate | frontend/src/App.js:83-97 | signed in with a profile, each listed path shows its page, and /input-form shows the dashboard |
| App.UnknownPathWithProfile | frontend/src/App.js:98-106 | signed in with a profile, a path no route matches redirects to /dashboard |
| App.RedirectSettles | frontend/src/App.js:98-111 | every redirect lands on a path that the same state renders as a page, so redirects never chain |
| App.CheckProfile | frontend/src/App.js:36-64 | nothing happens before the session loads, and loading ends after it; hasProfile becomes true exactly when the reply has success and not is_new_user; a failed call, and a signed-out visitor, leave it as it was |
| App.EmailParam | frontend/src/App.js:41-43 | the email sent with a request: the primary address, or the text 'undefined' when there is none |
| App.ProfileCheckOf | frontend/src/App.js:43-45 | how the profile reply reaches the page: a thrown call, or its success and is_new_user fields |
| App.ProfileFromBackend | frontend/src/App.js:36-57 | after the first check against the backend, the root has a profile exactly when the user is known and their questions are generated, and loading has ended |
| App.SignedOutSkipsCheck | frontend/src/App.js:55-57 | a signed-out visitor leaves the spinner without a profile request and is redirected to "/" |
| AppComponent.Root.constructor | frontend/src/App.js:31-32 | the root starts with no profile and the profile check pending |
| AppComponent.Root.CheckProfile | frontend/src/App.js:36-64 | the effect updates the fields as App.CheckProfile computes |
| Quiz.Fetch | frontend/src/pages/Quiz.js:20-41 | a successful non-empty fetch keeps the first min(10, n) questions in server order; an unsuccessful or empty reply shows 'Failed to fetch quiz questions.', and a thrown call or a missing list the other message; loading ends in every outcome; the invariant holds |
| Quiz.Submit | frontend/src/pages/Quiz.js:43-53 | a second submission for the same question changes nothing; the first records the key and adds 1 to the score exactly when the key is the correct one |
| Quiz.Next | frontend/src/pages/Quiz.js:55-65 | the selection and the submitted flag are cleared, and the score kept; the index advances when a question remains, otherwise the score is shown |
| Quiz.Correct | frontend/src/pages/Quiz.js:43-53 | the count of correct picks is at most the number of picks |
| Quiz.PlayScores | frontend/src/pages/Quiz.js:43-65 | answering every remaining question ends on the score screen, with one point per correct pick |
| Quiz.Play | frontend/src/pages/Quiz.js:43-65 | a run of submit and next through every remaining question; its score is stated by Quiz.PlayScores |
| Quiz.AllCorrectCounts | frontend/src/pages/Quiz.js:48-51 | picks that are all correct count in full |
| Quiz.PerfectRun | frontend/src/pages/Quiz.js:25-65 | after a fetch of n questions, answering every kept question correctly scores min(10, n) out of min(10, n) |
| Quiz.ToQuizQuestions | backend/app.py:795-805 | each quiz row becomes the question the page reads, in order |
| Quiz.FirstVisitShowsError | frontend/src/pages/Quiz.js:23-36 | the backend's reply to a first visit has no question list, so the page shows the generic error rather than waiting |
| Quiz.StoredQuizIsShown | frontend/src/pages/Quiz.js:24-27 | once the backend holds a user's quiz, the page shows its first ten questions in row order |
| QuizComponent.QuizPage.constructor | frontend/src/pages/Quiz.js:11-18 | the page starts loading, with no questions and a zero score |
| QuizComponent.QuizPage.FetchQuizQuestions | frontend/src/pages/Quiz.js:20-41 | the effect updates the fields as Quiz.Fetch computes |
| QuizComponent.QuizPage.HandleAnswerSubmit | frontend/src/pages/Quiz.js:43-53 | the handler updates the fields as Quiz.Submit computes |
| QuizComponent.QuizPage.HandleNextQuestion | frontend/src/pages/Quiz.js:55-65 | the handler updates the fields as Quiz.Next computes |
| QACard.Mount | frontend/src/components/QACard.js:7-10 | a card starts with the question's answer, shown exactly when that answer is truthy |
| QACard.MountedControls | frontend/src/components/QACard.js:40-84 | a mounted card offers the shown answer with its toggle or the generate button, never both; the button is enabled exactly when there is no answer |
| QACard.OffersGenerate | frontend/src/components/QACard.js:74 | the generate button is rendered exactly when the card has no answer |
| QACard.GenerateEnabled | frontend/src/components/QACard.js:74-78 | the generate button is rendered and not disabled by a running request |
| QACard.AnswerShown | frontend/src/components/QACard.js:40-57 | the answer text shows exactly when there is an answer and it is toggled on |
| QACard.Start | frontend/src/components/QACard.js:13-14 | a generate click clears the error and sets loading, and keeps the answer |
| QACard.Finish | frontend/src/components/QACard.js:15-26 | on success the answer is the reply's, it is shown and the callback runs exactly when given; on failure the error is the reply's message or 'Failed to generate answer.', the answer is kept and the callback does not run; loading ends either way |
| QACard.Toggle | frontend/src/components/QACard.js:29-31 | the toggle flips only showAnswer |
| QACard.ToggleTwice | frontend/src/components/QACard.js:29-31 | two toggles restore the card |
| QACard.GeneratedAnswerShown | frontend/src/components/QACard.js:12-27 | after a generated non-empty answer, the card shows it, the generate button is gone and no error is shown |
| QACard.CardHoldsStoredAnswer | frontend/src/components/QACard.js:12-27 | against the backend, the card ends up holding exactly the answer the backend now stores for the question, and notifies the page; when the generator raises or the owner is gone, nothing is stored, the card keeps its answer, shows an error and does not notify; an unknown question leaves the answer alone and shows "Question not found" |
| QACard.AnswerResult | frontend/src/utils/api.js:93-110 | the call succeeds exactly for a 2xx reply and then gives its answer field; otherwise it throws with the reply's error text, with the fallback text, or with the parser's message for a non-JSON reply |
| QACardComponent.Card.constructor | frontend/src/components/QACard.js:7-10 | the fields start as QACard.Mount computes |
| QACardComponent.Card.HandleGenerateAnswer | frontend/src/components/QACard.js:12-27 | the handler updates the fields as QACard.Start and QACard.Finish compute, and reports whether the callback ran |
| QACardComponent.Card.ToggleAnswerVisibility | frontend/src/components/QACard.js:29-31 | the handler updates the fields as QACard.Toggle computes |
| RoleQA.CountAnswered | frontend/src/pages/RoleQA.js:25 | the answered count is at most the number of questions |
| RoleQA.Visible | frontend/src/pages/RoleQA.js:50-54 | the filtered list is never longer than the list |
| RoleQA.VisibleExact | frontend/src/pages/RoleQA.js:50-54 | a question is shown exactly when it is in the list and the filter lets it through ('answered' needs a truthy answer, 'unanswered' its absence, 'all' nothing) |
| RoleQA.FilterSizes | frontend/src/pages/RoleQA.js:50-54 | 'all' keeps the whole list, and the 'answered' and 'unanswered' lists have the answered count and the rest |
| RoleQA.MountCards | frontend/src/pages/RoleQA.js:126-131 | one card per shown question, and a card that stays shown keeps its state |
| RoleQA.NewCardsMountFromList | frontend/src/pages/RoleQA.js:126-131 | a newly mounted card starts from the answer in the page's list |
| RoleQA.Fetch | frontend/src/pages/RoleQA.js:18-41 | on success the list is the reply's, the count is its answered count, storage holds that count and each shown question has a card; an unsuccessful reply shows its error or 'Failed to fetch questions.'; a thrown call shows the generic message; loading ends in every outcome |
| RoleQA.SetFilter | frontend/src/pages/RoleQA.js:108-131 | the filter changes, the cards are those of the newly shown questions, and nothing else changes |
| RoleQA.AnswerGenerated | frontend/src/pages/RoleQA.js:43-48 | the count rises by exactly one, storage reads back the new count, the update event is dispatched and the list is unchanged |
| RoleQA.GenerateOnCard | frontend/src/pages/RoleQA.js:126-131 | the clicked card updates as QACard computes, and a generated answer adds one to the count (stored and announced) |
| RoleQA.SetAnswer | frontend/src/pages/RoleQA.js:12 | the corrected page's list with one question's answer replaced |
| RoleQA.FixedAnswerGenerated | frontend/src/pages/RoleQA.js:43-48 | corrected: the answered question's answer enters the list and the count is the list's answered count, stored and announced |
| RoleQA.FixedGenerateOnCard | frontend/src/pages/RoleQA.js:126-131 | corrected: a generated answer goes through FixedAnswerGenerated, and a failure changes only the card |
| RoleQA.FetchEstablishesCountInv | frontend/src/pages/RoleQA.js:23-27 | after the fetch, the count is the list's answered count and storage holds it |
| RoleQA.FixedCountIsExact | frontend/src/pages/RoleQA.js:95-115 | corrected, after any run of filter changes and answers the count is the number of answered questions: at most the list's length, and the size of the 'answered' filter, so the three button counts are right; storage reads back the same count |
| RoleQA.OneQuestion | frontend/src/pages/RoleQA.js:25-54 | the filter, count and card mounting on a one-question list |
| RoleQA.FetchOne | frontend/src/pages/RoleQA.js:18-41 | for any unanswered question, the page loaded with just that question shows it under 'all' with a count of 0, one card, and generate enabled |
| RoleQA.StaleRemount | frontend/src/pages/RoleQA.js:50-131 | for any single question the list reads as unanswered, it loses its card under 'answered' and gets a fresh one under 'all' |
| RoleQA.DoubleCount | frontend/src/pages/RoleQA.js:43-48 | as written, for any unanswered question and any answer, the run generate, 'answered', 'all', generate on that one question ends with a count of 2, and storage holds 2 |
| RoleQA.FirstGenerate | frontend/src/pages/RoleQA.js:43-48 | as written, the first generate on a single unanswered question counts 1 but leaves the list's question unanswered |
| RoleQA.StaleRunAsWritten | frontend/src/pages/RoleQA.js:43-54 | as written, for any unanswered question and any answer, after generate, 'answered', 'all' the question's card mounts again without its answer |
| RoleQA.RunAppend | frontend/src/pages/RoleQA.js:43-131 | running two lists of actions in turn is running their concatenation |
| RoleQA.Step | frontend/src/pages/RoleQA.js:43-131 | one filter click or generate click on the page, as written or corrected; its effect is stated by the lemmas on the runs |
| RoleQA.Run | frontend/src/pages/RoleQA.js:43-131 | a run of clicks, which stops when a click's control is not on screen and enabled; its composition is stated by RoleQA.RunAppend |
| RoleQA.FixedFirstGenerate | frontend/src/pages/RoleQA.js:43-48 | corrected, the first generate with a non-empty answer records it in the list and on the card, and counts 1 |
| RoleQA.DoubleCountFixed | frontend/src/pages/RoleQA.js:43-48 | corrected, for any unanswered question and non-empty answer, the run generate, 'answered', 'all' counts the question once, and the second generate click is not available |
| RoleQA.FetchFromBackend | frontend/src/pages/RoleQA.js:18-41 | against the backend, a known user sees exactly their role questions in row order, with the answered count stored; an unknown user gets the generic error |
| RoleQAComponent.RoleQAPage.constructor | frontend/src/pages/RoleQA.js:12-16 | the page starts loading, with no questions, a zero count and the 'all' filter |
| RoleQAComponent.RoleQAPage.FetchQuestions | frontend/src/pages/RoleQA.js:18-41 | the effect updates the fields as RoleQA.Fetch computes |
| RoleQAComponent.RoleQAPage.HandleAnswerGenerated | frontend/src/pages/RoleQA.js:43-48 | the handler updates the fields as RoleQA.AnswerGenerated computes |
| RoleQAComponent.RoleQAPage.SetFilter | frontend/src/pages/RoleQA.js:108 | the button updates the fields as RoleQA.SetFilter computes |
| InputForm.Prefill | frontend/src/pages/InputForm.js:21-29 | with a user, the form takes their id and full name (or ''), and company and role are untouched; without one nothing changes |
| InputForm.InputChange | frontend/src/pages/InputForm.js:31-37 | only the named field changes |
| InputForm.FileChange | frontend/src/pages/InputForm.js:39-44 | the résumé is replaced only when a file is chosen |
| InputForm.FileInvPreserved | frontend/src/pages/InputForm.js:21-44 | the handlers keep the chosen file and the stored résumé in agreement |
| InputForm.FieldParts | frontend/src/pages/InputForm.js:67-69 | one field part per form key, in key order |
| InputForm.BuildPayload | frontend/src/pages/InputForm.js:66-73 | the payload is every form field in key order, then the email, then the résumé when one was chosen |
| InputForm.Payload | frontend/src/pages/InputForm.js:66-73 | the parts of the multipart form in append order; their read-back is stated by InputForm.PayloadRoundTrip |
| InputForm.SkipParts | frontend/src/pages/InputForm.js:66-73 | parts before the first one with a key do not affect its lookup |
| InputForm.PayloadRoundTrip | frontend/src/pages/InputForm.js:66-73 | the backend reads back exactly what the form sent: each field, the email (the text "undefined" when the user has none) and the résumé's name |
| InputForm.ValidatedFormHasAllFields | frontend/src/pages/InputForm.js:133-181 | a form the browser lets through, from a user with an id and an email, passes the backend's field check |
| InputForm.Submit | frontend/src/pages/InputForm.js:61-82 | an incomplete form is not submitted; a sent form clears the error and waits on the first poll; a failed submission shows the error, ends loading and never polls; once loading starts the file input is unmounted, so it is empty afterwards while the kept résumé stays |
| InputForm.Poll | frontend/src/pages/InputForm.js:46-59 | success with questionsGenerated 1 ends loading with success; a thrown call shows the error, ends loading and brings back the form with an empty file input; any other reply schedules one more poll and changes nothing |
| InputForm.RetryNeedsFileAgain | frontend/src/pages/InputForm.js:84-181 | after a failed submit or poll the browser blocks the next submit until a file is chosen again, though the kept résumé stays; choosing one re-enables it |
| InputForm.Validates | frontend/src/pages/InputForm.js:127-181 | the browser's check of the four required inputs: three non-empty text fields and a file in the file input |
| InputForm.Screen | frontend/src/pages/InputForm.js:84-116 | the spinner while loading, else the success card, else the form with its error |
| InputForm.PollInvPreserved | frontend/src/pages/InputForm.js:46-116 | the spinner shows exactly while a poll is pending, so each poll either keeps the spinner or ends the polling |
| InputForm.IntakeFlow | frontend/src/pages/InputForm.js:61-82 | against the backend, a sent form polls exactly when the backend accepts it with 202, otherwise it shows the error; after the background step, the poll ends with success exactly when all three question sets were generated, and changes nothing otherwise |
| InputForm.PendingKeepsPolling | frontend/src/pages/InputForm.js:46-59 | while the backend's status is pending, a poll changes nothing |
| InputFormComponent.IntakePage.constructor | frontend/src/pages/InputForm.js:9-18 | the form starts empty and idle |
| InputFormComponent.IntakePage.PrefillFromUser | frontend/src/pages/InputForm.js:21-29 | the effect updates the fields as InputForm.Prefill computes |
| InputFormComponent.IntakePage.HandleInputChange | frontend/src/pages/InputForm.js:31-37 | the handler updates the fields as InputForm.InputChange computes |
| InputFormComponent.IntakePage.HandleFileChange | frontend/src/pages/InputForm.js:39-44 | the handler updates the fields as InputForm.FileChange computes |
| InputFormComponent.IntakePage.HandleSubmit | frontend/src/pages/InputForm.js:61-82 | the handler updates the fields as InputForm.Submit computes, emptying the file input, and sends exactly InputForm.Payload when the form validates |
| InputFormComponent.IntakePage.PollQuestionStatus | frontend/src/pages/InputForm.js:46-59 | the poll updates the fields as InputForm.Poll computes, with an empty file input after a thrown call |
| ResumeAnalysis.Settle | frontend/src/pages/ResumeAnalysis.js:24-40 | a reply that is not pending ends loading and polling, and sets the analysis when it carries success and one, otherwise the reply's error or 'Failed to fetch resume analysis.' |
| ResumeAnalysis.Fetch | frontend/src/pages/ResumeAnalysis.js:16-50 | a pending reply starts the interval and keeps loading; another reply settles the page; a thrown call shows the generic message; loading lasts exactly as long as the interval |
| ResumeAnalysis.Tick | frontend/src/pages/ResumeAnalysis.js:22-33 | as written, a pending reply and a thrown call both change nothing, and any other reply settles the page |
| ResumeAnalysis.FixedTick | frontend/src/pages/ResumeAnalysis.js:22-33 | corrected, a thrown call also stops the interval and shows the generic error, so every reply that is not pending ends polling |
| ResumeAnalysis.TicksKeepPollInv | frontend/src/pages/ResumeAnalysis.js:22-33 | any number of ticks keeps the spinner on exactly while the interval runs |
| ResumeAnalysis.Ticks | frontend/src/pages/ResumeAnalysis.js:22-33 | up to n interval ticks with the same reply, stopping once polling ends; its invariant is stated by ResumeAnalysis.TicksKeepPollInv |
| ResumeAnalysis.TicksAtFixedPoint | frontend/src/pages/ResumeAnalysis.js:22-33 | a tick that changes nothing is repeated forever |
| ResumeAnalysis.Shown | frontend/src/pages/ResumeAnalysis.js:92-116 | a list shows its first four items, or all of them when show-all is on |
| ResumeAnalysis.Screen | frontend/src/pages/ResumeAnalysis.js:52-73 | the spinner while loading, else the error, else the report with the shown lists, else the placeholder |
| ResumeAnalysis.ToggleMatters | frontend/src/pages/ResumeAnalysis.js:102-126 | the show-more button exists exactly when the collapsed list hides something |
| ResumeAnalysis.ToggleStrengths | frontend/src/pages/ResumeAnalysis.js:70 | the toggle flips only the strengths flag |
| ResumeAnalysis.ToggleImprovements | frontend/src/pages/ResumeAnalysis.js:71 | the toggle flips only the improvements flag |
| ResumeAnalysis.SettledPageShowsSomething | frontend/src/pages/ResumeAnalysis.js:52-78 | after the fetch and any number of ticks, the page shows the spinner, an error or the report, never the empty placeholder |
| ResumeAnalysis.TicksNeverEmpty | frontend/src/pages/ResumeAnalysis.js:22-33 | ticks keep the page showing something |
| ResumeAnalysis.CompletedAnalysisShown | frontend/src/pages/ResumeAnalysis.js:16-50 | against the backend, a first visit starts the interval, and when the analysis succeeds the next tick shows its score and collapsed lists and stops the interval |
| ResumeAnalysis.FailedAnalysisSpins | frontend/src/pages/ResumeAnalysis.js:22-33 | as written, when the background analysis fails, the page shows the spinner after any number of ticks |
| ResumeAnalysis.FailedAnalysisSettlesFixed | frontend/src/pages/ResumeAnalysis.js:22-33 | corrected, the first tick after a failed analysis stops the interval and shows the error |
| ResumeAnalysis.RevisitAfterFailure | frontend/src/pages/ResumeAnalysis.js:41-45 | a later visit after a failed analysis shows the generic error at once |
| ResumeAnalysisComponent.AnalysisPage.constructor | frontend/src/pages/ResumeAnalysis.js:10-14 | the page starts loading, with no analysis and both lists collapsed |
| ResumeAnalysisComponent.AnalysisPage.SettleWith | frontend/src/pages/ResumeAnalysis.js:26-31 | updates the fields as ResumeAnalysis.Settle computes |
| ResumeAnalysisComponent.AnalysisPage.FetchAnalysis | frontend/src/pages/ResumeAnalysis.js:16-50 | the effect updates the fields as ResumeAnalysis.Fetch computes |
| ResumeAnalysisComponent.AnalysisPage.OnInterval | frontend/src/pages/ResumeAnalysis.js:22-33 | the interval callback updates the fields as ResumeAnalysis.Tick computes |
| ResumeAnalysisComponent.AnalysisPage.ToggleShowAllStrengths | frontend/src/pages/ResumeAnalysis.js:70 | updates the fields as ResumeAnalysis.ToggleStrengths computes |
| ResumeAnalysisComponent.AnalysisPage.ToggleShowAllImprovements | frontend/src/pages/ResumeAnalysis.js:71 | updates the fields as ResumeAnalysis.ToggleImprovements computes |
| Storage.NumberToString | frontend/src/pages/RoleQA.js:27 | a count is written as a non-empty string of decimal digits |
| Storage.TrimStart | frontend/src/pages/Dashboard.js:31-33 | a suffix of the text that parseInt starts reading from: it does not begin with white space or a line terminator |
| Storage.ParseInt | frontend/src/pages/Dashboard.js:31-33 | parseInt gives NaN exactly when no digit follows the optional sign after the leading white space and line terminators |
| Storage.ReadNumber | frontend/src/pages/Dashboard.js:23-33 | a stored number reads back as its parse, and a missing or non-numeric value as 0 |
| Storage.NumberRoundTrip | frontend/src/pages/RoleQA.js:27 | a count written with toString parses back to itself |
| Storage.StoredCountReadsBack | frontend/src/pages/RoleQA.js:44-47 | a count a page stores reads back as that count |
| Dashboard.ReadCounts | frontend/src/pages/Dashboard.js:30-39 | each counter is the parse-or-0 read of its own key |
| Dashboard.Mount | frontend/src/pages/Dashboard.js:21-45 | the mount records the start time, reads the time spent and the counters with the parse-or-0 rule, and listens for the three events |
| Dashboard.MountReadsStoredCounts | frontend/src/pages/Dashboard.js:22-41 | recording the start time does not disturb the counters read right after |
| Dashboard.OnEvent | frontend/src/pages/Dashboard.js:43-45 | an event the page listens for re-reads all three counters; any other event changes nothing |
| Dashboard.AreaTimer | frontend/src/pages/Dashboard.js:26-28 | the timer sets the area to improve to 'Technical Skills' |
| Dashboard.Unmount | frontend/src/pages/Dashboard.js:60-64 | the cleanup removes every listener, so later events change nothing |
| Dashboard.ScoreFetched | frontend/src/pages/Dashboard.js:47-56 | the score is set to the analysis score only for a successful reply that carries an analysis; anything else leaves it as it was |
| Dashboard.RoleAnswerReachesDashboard | frontend/src/pages/Dashboard.js:43-45 | an answer generated on the role page reaches a mounted dashboard as the new role count, and the other counters are unchanged |
| Dashboard.DashboardShowsRoleCount | frontend/src/pages/Dashboard.js:30-41 | after the role page has loaded its questions from the backend, a freshly mounted dashboard shows their answered count |
| Dashboard.ScoreFromBackend | frontend/src/pages/Dashboard.js:47-56 | against the backend, the score is the latest analysis's score exactly when that analysis is completed; a pending, failed or missing one leaves the score as it was, and a first request starts the analysis |
| Dashboard.ScoreReplyOf | frontend/src/pages/Dashboard.js:47-56 | how the analysis reply reaches the page: a thrown call, or its success and analysis fields |
| DashboardComponent.DashboardPage.constructor | frontend/src/pages/Dashboard.js:12-19 | the counters, time and score start at 0 and the area empty |
| DashboardComponent.DashboardPage.MountEffect | frontend/src/pages/Dashboard.js:21-45 | the effect updates the fields and storage as Dashboard.Mount computes |
| DashboardComponent.DashboardPage.UpdateQuestionCounts | frontend/src/pages/Dashboard.js:30-39 | only the counters change, to the stored values |
| DashboardComponent.DashboardPage.HandleEvent | frontend/src/pages/Dashboard.js:43-45 | updates the fields as Dashboard.OnEvent computes |
| DashboardComponent.DashboardPage.OnAreaTimer | frontend/src/pages/Dashboard.js:26-28 | updates the fields as Dashboard.AreaTimer computes |
| DashboardComponent.DashboardPage.FetchResumeScore | frontend/src/pages/Dashboard.js:47-56 | updates the fields as Dashboard.ScoreFetched computes |
| DashboardComponent.DashboardPage.Cleanup | frontend/src/pages/Dashboard.js:60-64 | updates the fields as Dashboard.Unmount computes |
| Layout.StoredFlag | frontend/src/components/Layout.js:6-12 | a missing or null stored flag gives the default, and a stored boolean gives itself |
| Layout.StringifyReadsBack | frontend/src/components/Layout.js:15-25 | a flag written with JSON.stringify reads back as itself |
| Layout.Mount | frontend/src/components/Layout.js:6-13 | the frame restores the sidebar (default open) and dark mode (default off) from storage, starts with the menu closed, and is mobile exactly when the width is below 768 |
| Layout.FirstVisitDefaults | frontend/src/components/Layout.js:6-12 | with nothing stored, the sidebar is open and dark mode off |
| Layout.StoredFalseKept | frontend/src/components/Layout.js:6-8 | a stored false keeps the sidebar closed, because the default applies only to a missing value |
| Layout.ToggleSidebar | frontend/src/components/Layout.js:15-18 | the sidebar flips and exactly the new value is stored under 'isSidebarOpen' |
| Layout.ToggleDarkMode | frontend/src/components/Layout.js:22-25 | dark mode flips and exactly the new value is stored under 'isDarkMode' |
| Layout.ToggleMenu | frontend/src/components/Layout.js:20 | only the menu flips, and nothing is stored |
| Layout.CloseMenu | frontend/src/components/Layout.js:81-90 | the overlay's backdrop and close callback close the menu and change nothing else |
| Layout.Resize | frontend/src/components/Layout.js:36-41 | the frame is mobile exactly when the width is below 768; a wider window closes the menu, and a narrower one keeps it |
| Layout.MainMargin | frontend/src/components/Layout.js:96-100 | the content has no margin on mobile, and the wide margin exactly when the sidebar is open otherwise |
| Layout.ToggleTwice | frontend/src/components/Layout.js:15-25 | two toggles restore each flag |
| Layout.MountPersisted | frontend/src/components/Layout.js:6-12 | a restored frame agrees with storage |
| Layout.StepPersisted | frontend/src/components/Layout.js:15-41 | every handler keeps storage in agreement with the frame |
| Layout.RunPersisted | frontend/src/components/Layout.js:15-41 | any run of handlers keeps storage in agreement with the frame |
| Layout.Step | frontend/src/components/Layout.js:15-41 | one handler of the frame; that it keeps storage in agreement is stated by Layout.StepPersisted |
| Layout.Run | frontend/src/components/Layout.js:15-41 | a run of handlers; that it keeps storage in agreement is stated by Layout.RunPersisted |
| Layout.ReloadRestores | frontend/src/components/Layout.js:6-41 | whatever the user did, a reload restores the sidebar and dark mode as they were left, with the menu closed |
| LayoutComponent.FramePage.constructor | frontend/src/components/Layout.js:6-13 | the fields start as Layout.Mount computes |
| LayoutComponent.FramePage.HandleToggleSidebar | frontend/src/components/Layout.js:15-18 | updates the fields and storage as Layout.ToggleSidebar computes |
| LayoutComponent.FramePage.HandleToggleDarkMode | frontend/src/components/Layout.js:22-25 | updates the fields and storage as Layout.ToggleDarkMode computes |
| LayoutComponent.FramePage.HandleToggleMenu | frontend/src/components/Layout.js:20 | updates the fields as Layout.ToggleMenu computes |
| LayoutComponent.FramePage.HandleCloseMenu | frontend/src/components/Layout.js:81-90 | updates the fields as Layout.CloseMenu computes |
| LayoutComponent.FramePage.HandleResize | frontend/src/components/Layout.js:36-41 | updates the fields as Layout.Resize computes |

## Left out

- Network and HTTP plumbing: the fetch wrappers of frontend/src/utils/api.js, authentication tokens and the hard-coded fetch of the profile page. A reply is an input value; only the "non-2xx throws" rule of the wrappers is modelled (`Client.Receive`).
- Language-model, search and page-fetch services: the question generator, the answer generator, the résumé analyser and the quiz generator, with their prompt and output parsing. Their results are parameters of the model. The remaining link handling of generate_questions is also left out.
- Text extraction from PDF and docx files, and secure_filename: only the extension dispatch is modelled. Backend.UploadPath joins the id and the name without sanitising them.
- Threads and concurrency. Background work is a separate, explicit step on the database. How requests and background steps interleave, and the fact that Flask handles requests concurrently, are not modelled: every trace is sequential.
- Timers, intervals and React scheduling. Polls and ticks are explicit steps. Effect re-runs caused by changed dependencies are not modelled, nor are stale closures over old state, batched updates or unmounting during an await. In particular, every page effect runs once per mount in the model. In the program, useAuthenticatedApi returns a new object on every render (frontend/src/utils/api.js:160-168), and these effects depend on it. So the fetch effects of RoleQA.js and Quiz.js run again after every render, and so does the fetch effect of ResumeAnalysis.js once the analysis is set. The dashboard's mount effect (Dashboard.js:65) sets a fresh counts object on each run, which renders the page again and re-runs the effect. That loop keeps rewriting sessionStartTime and requesting the résumé analysis, so `Dashboard.Mount` describes one pass of it, not a single run.
- Backend.EndRequest: the undeclared generation_in_progress attribute is modelled as a per-request set that is discarded when the request ends. Whether SQLAlchemy's identity map keeps it on a cached object across requests is not captured.
- Timestamps: analysis order is insertion order, so two analyses with the same timestamp are not distinguished. The timestamp field of the completed analysis reply is not modelled, and neither is the question_type field of the quiz reply.
- Floating point: the progress widths and percentages of the dashboard, the quiz and the role page, and the Float score column. A score is an optional integer.
- The stub endpoints /api/analytics, /api/question-counts and /api/health; /api/update-profile; /api/check-user; and the three per-type question endpoints that duplicate /api/questions/<type>.
- Router mechanics: App.Screen models the route table as written, as an ordered list with the fallback. How Switch treats the fragment, case-insensitive matching and a trailing slash are left out.
- The Navbar component and the other presentational pages, and the DOM side effect of the 'dark' class.
- Text.Lower lower-cases ASCII letters only.
- Backend.DuplicateEmailMessage: the reply to a duplicate email carries str() of the database's IntegrityError. Its text comes from the database driver; with SQLite it starts with "(sqlite3.IntegrityError) " and includes the SQL statement. The model uses one constant for it.
- Storage.IsSpace follows ECMAScript's white space and line terminator characters, with the space separators of current Unicode; a JavaScript engine on an older Unicode version may differ on newly added separators.
- Storage.ParseInt uses unbounded integers, so the precision loss of very long digit strings is not modelled.
- Layout.StoredFlag: a stored value that is valid JSON but not a boolean (a number, say) is outside the model, and Layout.Mount reports it as a failure. The original would use that value as a truthy or falsy flag.
- RoleQA.Fetch: when a successful reply lacks a questions field, the original throws on reading its length after setting the list to undefined. The model keeps the list as it was and shows the generic error. The backend never sends such a reply.
- Duplicate React keys, and what the browser does with an empty or unknown field name in an input change.
- With a profile, App.js renders the dashboard at /input-form rather than redirecting to /dashboard (`App.ProfileGate`).

## Findings

| source | as written | input that shows it | evidently intended | confidence | as-written member | corrected member |
|---|---|---|---|---|---|---|
| frontend/src/pages/RoleQA.js:43-48 | handleAnswerGenerated adds one to the count but never records the answer in the page's question list, so a card that mounts again starts without its answer and can count the same question twice. The model fetches once per mount. In the program, the fetch effect runs again after every render because its authenticatedApi dependency is a new object each time, and that reload brings back the stored answer and resets the count. So the double count is a transient race: it shows only when the filter clicks and the second generate come before the reload, and the next reload overwrites it | one unanswered question; generate an answer, choose 'answered', choose 'all', generate again before the list reloads: the count is 2 for a single question, 'unanswered' shows -1, and storage and the dashboard read 2 until the next reload | each question is counted once: the count is the number of answered questions in the list | not executed | RoleQA.DoubleCount | RoleQA.FixedCountIsExact |
| frontend/src/pages/ResumeAnalysis.js:22-33 | the interval callback has no error handling; when the background analysis fails, the backend answers 500, the call throws, clearInterval is never reached and the spinner never ends | a user whose analysis fails (no résumé text, or the analyser errs): first visit replies pending, then every tick gets the 500 | a failed poll ends polling and shows the error, as the initial fetch does | not executed | ResumeAnalysis.FailedAnalysisSpins | ResumeAnalysis.FailedAnalysisSettlesFixed |
