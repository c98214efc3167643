# Energy-quote lead form: a Dafny model

This project models the two pieces of logic at the heart of a small lead-capture application for business energy quotes.

The first is the adaptive questionnaire of the React component `LeadAgent.jsx`:
- the planner `getVisibleSteps`, which turns the answers given so far into the ordered list of questions still to show;
- the cursor (`step`) and its handlers `handleNext`, `handlePrevious` and `handleInputChange`;
- the submit filter, which sends every answer that is neither `null` nor empty, plus the bill file.

The second is the lead assembly of the Express server `server.js`:
- the upload allow-list;
- the media type chosen from a bill's file name;
- the outcomes of the bill-extraction helper;
- the `leadData` merge, where a submitted field wins over the one read from the bill;
- which blocks and lines the notification email contains.

Modules, one per concern:
- `Wrappers`: `Option` and `Result`.
- `JsValues`: JavaScript truthiness of a string-or-null value, `||`, `${}` interpolation, ASCII `toLowerCase`, `endsWith`.
- `FormAnswers`: the answer store, its 25 keys and the single-field update `{ ...prev, [field]: value }`.
- `StepPlanner`: the question identifiers and the plan, as a specification function `Plan`. It also holds the imperative `GetVisibleSteps`, which builds an array with `null` holes by successive pushes and then filters, and is proved equal to `Plan`.
- `PlanProperties`: what the plan promises for every set of answers.
- `LeadAgentState`: the class `LeadAgent`, holding the cursor, answers, bill file and error banner, with its handlers.
- `Submission`: the multipart body the form sends (`FormDataToSend`), specified by `Submitted`.
- `Uploads`: the bill file and the server's MIME allow-list.
- `BillExtraction`: the extracted-data record, `ExtractBillData` and `MediaType`.
- `LeadMerge`: the request body as the server reads it, the lead record `Merge`, and the link from the form's answers to the lead.
- `LeadEmail`: the notification email as blocks of labelled lines.

Modelling choices:
- The answers that start out as `null` are `Option<string>`. These are `serviceType`, `billProvided`, `contractStatus`, `meterType`, `detailedComparison`, `preferredContact` and `meterNumber`. The other answers are strings.
- On the server, a key missing from the request body is `undefined`, also written `None`. `${undefined}` prints as `undefined`.
- `meterType` is compared to the exact literals the planner uses.

Behaviour of the code that the model keeps as written:
- The planner tests `meterType === 'Economy 7'` (LeadAgent.jsx:58, 60). The meter-type buttons store `'Economy 7 / two-rate'` (LeadAgent.jsx:315). So of the offered meter types, only Half-Hourly and Single Rate bring in rate questions, and no choice on the form leads to the night-rate question except Half-Hourly (`PlanProperties.OfferedMeterTypes`).
- For Economy 7, the code pushes `nightRate` once, after `standingCharge`. No de-duplication pass exists or is needed: no identifier is ever pushed twice (`PlanProperties.PlanDistinct`).
- The electricity branch asks for the property address while the meter question is still unanswered: `meterNumber` is `null`, the `else` branch fires, and `meterNumberQuestion` and `propertyAddress` follow one another. For this reason, answering the meter question removes it from the plan, and the unchanged cursor then shows the follow-up question (`PlanProperties.MeterAnswerShowsFollowUp`, `LeadAgentState.AnswerMeterQuestion`).
- The cursor is never clamped when the plan changes: `currentStep = visibleSteps[step]` has no bounds check. Accordingly, `CurrentStep` is partial, and `HandleNext`/`HandlePrevious` keep the cursor inside the plan only when it started inside.
- The lead never carries `fullMeterNumber` or `detailedComparison` (`LeadMerge.DroppedFields`). A visitor who answered the meter question sends `'yes'` or `'no'` as `meterNumber`, so the lead's `meterNumber` is that word and never the number read from the bill (`LeadMerge.MeterAnswerOverridesBill`).
- An answer that is still `null` is not sent. It therefore reaches the lead as `undefined`, not `null`: for example, the email prints "Preferred Contact: undefined" (`LeadEmail.UnchosenPreference`).
- The upload filter judges a file by its MIME type. The media type sent for reading is chosen from the file's name. The two are independent: an accepted `image/png` upload named `bill` is labelled `application/pdf`.

## Model

| member | source | states |
|---|---|---|
| FormAnswers.FieldIndex | LeadAgent.jsx:6-32 | every key of the form state has one position in the key order of the initial object |
| FormAnswers.With | LeadAgent.jsx:124-126 | the updated field holds the new value and every other field keeps its old value |
| JsValues.Or | server.js:136-156 | `a || b` is its left operand when that is truthy and its right one otherwise, so the result is truthy iff either operand is |
| JsValues.OrElse | server.js:229-268 | `v || 'literal'` is the value when it is truthy and the literal otherwise |
| JsValues.Interpolate | server.js:227-238 | `${v}` prints a present value as it is and an absent one as "undefined" |
| JsValues.ToLower | server.js:65-66 | lower-casing keeps the length and maps each character on its own |
| JsValues.EndsWith | server.js:65-66 | a string ends with a suffix iff it is some prefix followed by that suffix |
| StepPlanner.OpeningFiltered | LeadAgent.jsx:41-46 | the four-slot opening array with its `null` holes filters down to the opening questions |
| StepPlanner.Plan | LeadAgent.jsx:40-105 | the plan for any answers holds at least ten questions: the two opening questions and the eight closing ones |
| StepPlanner.PushPresent | LeadAgent.jsx:104 | pushing questions and then dropping the nulls gives the earlier survivors followed by the pushed questions |
| StepPlanner.PushRateSteps | LeadAgent.jsx:56-63 | the pushes chosen by the meter type append exactly the rate questions of that meter type |
| StepPlanner.PushElectricitySteps | LeadAgent.jsx:49-72 | the successive electricity pushes append exactly the electricity questions of the plan |
| StepPlanner.PushGasSteps | LeadAgent.jsx:74-85 | the successive gas pushes append exactly the gas questions of the plan |
| StepPlanner.FilterNulls | LeadAgent.jsx:104 | the filter keeps the non-null entries, in order |
| StepPlanner.GetVisibleSteps | LeadAgent.jsx:40-105 | the push-then-filter computation returns the plan for the given answers |
| PlanProperties.PlanOpening | LeadAgent.jsx:41-46 | the plan starts with the service type and bill questions; the upload question is in it iff the bill answer is 'yes', and the contract-status question iff it is 'yes' or 'no' |
| PlanProperties.PlanClosing | LeadAgent.jsx:102 | the plan ends with the eight general questions, so it is never empty and its last question is the review |
| PlanProperties.PlanDistinct | LeadAgent.jsx:41-104 | no question occurs twice in any plan |
| PlanProperties.PlanMembership | LeadAgent.jsx:41-104 | each question can only come from its own part of the plan (opening, service branch, contract dates, usage) |
| PlanProperties.PlanAsks | LeadAgent.jsx:41-104 | a question is in the plan iff the independent per-question rule of when it is asked holds |
| PlanProperties.ElectricityMeterNumber | LeadAgent.jsx:64-71 | for electricity, the meter question is asked iff the meter answer is null; the full number is asked iff it is 'yes'; the property address is asked otherwise, including while it is still null |
| PlanProperties.ElectricityComparison | LeadAgent.jsx:50-55 | for electricity, the comparison question is asked iff no bill was given and a contract status is set; the meter type is asked iff a detailed comparison is wanted and a contract status is set; gas rates are never asked |
| PlanProperties.ElectricityRateMembers | LeadAgent.jsx:56-63 | which rate questions an electricity plan holds depends on the meter type alone |
| PlanProperties.ElectricityRates | LeadAgent.jsx:56-63 | the rate questions form one run: day, night, capacity, standing for Half-Hourly; day, standing, night for Economy 7; day, standing for Single Rate; none for any other value |
| PlanProperties.OfferedMeterTypes | LeadAgent.jsx:315 | of the meter types the form offers, only Half-Hourly brings in the night rate, only Half-Hourly and Single Rate bring in the day rate, so 'Economy 7 / two-rate' asks for neither |
| PlanProperties.GasBranch | LeadAgent.jsx:74-85 | for gas, the meter question is always asked; gas rates are asked iff a detailed comparison is wanted (without the contract-status condition); the comparison question follows the electricity rule; the full number is asked iff the answer is 'yes'; no address, meter type or electricity rate is asked |
| PlanProperties.ContractAndUsage | LeadAgent.jsx:87-100 | for every service but Water, the contract end date is asked iff a contract status is set, the takeover date iff it is 'moved', and the usage question iff no bill was given |
| PlanProperties.WaterPlan | LeadAgent.jsx:49-100 | for Water, the plan is exactly the opening followed by the general questions |
| PlanProperties.PlanReadsSteering | LeadAgent.jsx:40-105 | the plan depends on the six steering answers only |
| PlanProperties.TextInputKeepsPlan | LeadAgent.jsx:124-126 | typing into a text field, choosing a contact preference or picking an annual usage leaves the plan unchanged |
| PlanProperties.MeterAnswerShowsFollowUp | LeadAgent.jsx:64-71 | in the electricity branch, answering the meter question puts the follow-up question (full number after 'yes', address otherwise) at the same index |
| LeadAgentState.LeadAgent.constructor | LeadAgent.jsx:5-37 | the form starts on the first question, with the initial answers, no file and no error |
| LeadAgentState.LeadAgent.CurrentStep | LeadAgent.jsx:107-108 | the question on screen is the plan's entry at the cursor; there is none when the cursor lies beyond the plan |
| LeadAgentState.LeadAgent.HandleNext | LeadAgent.jsx:110-115 | the cursor advances by one and the error clears only when it is before the last question; otherwise nothing changes; a cursor inside the plan stays inside |
| LeadAgentState.LeadAgent.HandlePrevious | LeadAgent.jsx:117-122 | the cursor moves back by one and the error clears only when it is past the first question; otherwise nothing changes; a cursor inside the plan stays inside |
| LeadAgentState.LeadAgent.HandleInputChange | LeadAgent.jsx:124-126 | one answer is replaced, every other answer and the cursor are kept, and for a non-steering field the question on screen stays the same |
| LeadAgentState.LeadAgent.HandleFileChange | LeadAgent.jsx:128-133 | a picked file replaces the chosen one; cancelling the picker changes nothing |
| LeadAgentState.LeadAgent.FormDataToSend | LeadAgent.jsx:143-152 | the request body for the current answers and file is the submitted body |
| LeadAgentState.AnswerMeterQuestion | LeadAgent.jsx:417-426 | clicking a meter answer on the electricity meter question leaves the cursor in place and brings up the follow-up question |
| Submission.FormDataToSend | LeadAgent.jsx:143-152 | the key-by-key loop builds the submitted body: the kept answers in key order, then the file |
| Submission.TextEntries | LeadAgent.jsx:143-147 | the loop appends at most one text part per visited key, and each part it appends has a non-empty value |
| Submission.Submitted | LeadAgent.jsx:143-152 | the body has at most one part per key plus the file; its last part is a file part iff a file was chosen, and then it is that file |
| Submission.TextEntriesMembers | LeadAgent.jsx:143-147 | the loop keeps exactly the visited answers that are neither null nor empty, with their values |
| Submission.TextEntriesOrdered | LeadAgent.jsx:143-147 | the kept answers come out in the order the keys are visited |
| Submission.SubmittedFields | LeadAgent.jsx:143-152 | the sent text fields are exactly the non-null, non-empty answers, each once and in key order; the bill file is sent, last, iff one was chosen |
| Uploads.FileFilter | server.js:35-42 | an upload is accepted iff its MIME type is on the allow-list, and is otherwise refused with the fixed error message |
| Uploads.AllowList | server.js:36 | the accepted MIME types are exactly the four listed ones |
| BillExtraction.ExtractBillData | server.js:104-116 | extraction yields data iff the reply's first block is text that parses to an object, and that object is the data |
| BillExtraction.ExtractionFailures | server.js:104-116 | a failed call, an empty reply, a first block that is not text, and unparsable or null text all give absent data, never an error |
| BillExtraction.ExtensionsExclusive | server.js:65-66 | a name cannot end in both `.png` and `.jpg`/`.jpeg`, so the order of the two tests does not matter |
| BillExtraction.MediaType | server.js:64-66 | the lower-cased name decides the type: `.png` gives PNG, `.jpg`/`.jpeg` give JPEG, anything else PDF; every result is on the upload allow-list |
| BillExtraction.Lookup | server.js:136 | `extractedBillData?.key` is absent when nothing was extracted and the extracted value otherwise |
| LeadMerge.Sent | server.js:122 | a form field reads as present on the server iff its key was in the request body |
| LeadMerge.RequestBody | server.js:122 | every key sent in a text part of the request is present in the parsed body |
| LeadMerge.Extraction | server.js:123-128 | data is extracted iff a file came with the request and the helper returned data for the reply, and it is that data |
| LeadMerge.Merge | server.js:131-167 | the file name and size are present iff a file came with the request, and then are that file's; the extracted data is carried as it is |
| LeadMerge.SubmittedValueWins | server.js:136-156 | for the eight fields with a bill source, a non-empty submitted value wins; otherwise the extracted value is used, and it is absent when nothing was extracted |
| LeadMerge.Sources | server.js:136-156 | eight fields fall back to the bill: six to the same-named value, the property address to `address` and the current supplier to `supplier` |
| LeadMerge.PassThrough | server.js:133-161 | every other carried field is exactly the submitted value, whatever was extracted |
| LeadMerge.DroppedFields | server.js:131-167 | the full meter number and the comparison preference have no effect on the lead |
| LeadMerge.AbsentExtraction | server.js:123-156 | with nothing extracted, every carried field equals the submitted value or is absent, and a non-empty submission is kept |
| LeadMerge.AnsweredMeterQuestionWins | server.js:149 | a submitted meter answer 'yes' or 'no' is the lead's meter number whatever the bill says |
| LeadMerge.BodyOfTextEntries | server.js:120-122 | the server's body for the kept answers of some keys holds exactly those keys with non-empty, non-null answers |
| LeadMerge.ReceivedBody | server.js:120-122 | the server receives each form answer that is neither null nor empty, unchanged, and no other |
| LeadMerge.LeadFromAnswers | server.js:131-167 | from answers to lead: a field with a bill source is the answer when it is non-empty and otherwise the extracted value; any other field is the answer when it is neither null nor empty, and absent otherwise |
| LeadMerge.MeterAnswerOverridesBill | server.js:149 | once the visitor answered the meter question, the lead's meter number is that answer, never the one read from the bill |
| LeadEmail.OptionalLine | server.js:246-278 | a conditional line is printed iff its value is truthy, under its own heading and showing that value; a falsy value prints nothing |
| LeadEmail.GenerateLeadEmail | server.js:220-285 | the electricity block appears iff the service is Electricity, the gas block iff it is Gas, never both; the extracted block appears iff data was extracted; the bill line is never blank |
| LeadEmail.ElectricityLines | server.js:241-252 | the electricity block has five fixed lines and up to two conditional ones, from the meter type to the property address |
| LeadEmail.GasLines | server.js:254-261 | the gas block has three lines, none of them blank |
| LeadEmail.ExtractedLines | server.js:271-280 | the extracted block has at most four lines, none of them blank |
| LeadEmail.ElectricityBlock | server.js:241-252 | the day rate and standing charge lines always appear, reading "Not provided" when missing; the night rate and capacity lines appear iff non-empty; the meter number line shows the number or "Not provided" |
| LeadEmail.GasBlock | server.js:254-261 | the gas day rate, standing charge and supplier lines always appear, reading "Not provided" when missing |
| LeadEmail.AdditionalBlock | server.js:263-269 | the takeover date line appears iff it is non-empty; empty extra details read "None"; a missing contract end date reads "Not provided" |
| LeadEmail.ExtractedBlock | server.js:271-280 | the extracted block lists only non-empty meter number, supplier, day rate and standing charge values; each of the four lines appears iff that value is truthy and shows it |
| LeadEmail.DefaultedLines | server.js:229-265 | the phone, business name and annual energy usage lines always appear, reading "Not provided" when the value is missing or empty |
| LeadEmail.EmailDayRate | server.js:245 | for an electricity lead, the email's day rate is the visitor's when given, else the bill's when non-empty, else "Not provided" |
| LeadEmail.ExtractedBlockNeedsFile | server.js:123-128 | at the endpoint, the email has an extracted block iff a bill came with the request and its reply was read as an object; without a file the bill line reads "None" |
| LeadEmail.UnchosenPreference | server.js:230 | a visitor who chose no contact preference shows in the email with the preference "undefined" |
| LeadEmail.BillAttachedLine | server.js:283 | the bill line names the uploaded file, or reads "None" when there is none |

## Left out

- Rendering and styling: the JSX of each question screen, the CSS, and the floating-point progress bar width are presentation.
- The outcome of submitting: the `fetch` request, its response handling, and the `loading` and `submitted` flags and error-banner texts of `handleSubmit` are network I/O. Only the body the form builds is modelled.
- Asynchronous React state updates: each handler is one atomic update of the state.
- Express setup, routing, CORS and the JSON response of the endpoint, including its 500 error path, are HTTP plumbing.
- Multer disk storage, with its clock- and random-based file names, the uploads directory and the 10 MB size limit are foreign library behaviour. When the allow-list refuses a file, the failed request that results is not modelled beyond the filter's verdict.
- Reading the file, base64 encoding, the document-reading service call and its prompt are foreign calls. The reply is a parameter, and `JSON.parse` is a function parameter. A JSON value other than an object or `null`, and non-string values inside the object (numbers, say), are not modelled. Every extracted field is a string or absent.
- BillExtraction.ExtractBillData: `null` and `undefined` results are both `None`, because none of the code that reads the result tells them apart except the endpoint's JSON response, which is not modelled.
- Sending both emails, the email subjects and the confirmation email (with its `preferredContact || 'email'`) are foreign I/O.
- Timestamps, `toLocaleString` and the `LEAD-` identifier depend on the clock. The lead record has no timestamp, and the email has no submission-time line.
- The exact HTML of the lead email is not modelled. The email is modelled as its blocks and labelled lines.
- Request-body keys that the server never reads are not modelled. The body is keyed by the form's own fields.
- LeadMerge.RequestBody: a key sent twice keeps its last value, whereas the multipart parser would collect the values into an array; the form never sends a key twice (`Submission.SubmittedFields`). The contract states only that every sent key is present.
- JsValues.ToLower: lower-cases ASCII letters only, because other Unicode case mappings are not modelled.
