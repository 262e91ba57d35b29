# Subscription-box feedback workflow, in Dafny

This project models the server-side core of a Shopify app for a dog-toy
subscription box. The app collects an intake questionnaire for each order and
writes it as a note on the order. When a fulfillment is created it records a
tracker. A week later a periodic sweep emails the customer a feedback link and
creates one pending feedback row per shipped product. The customer's answers
come back through a submit endpoint.

The database is an in-memory `Database` class. It holds the three tables as
sequences, and a row's id is its position in its table (`store.dfy`). The
email sender, the clock, date parsing and printing, `JSON.parse`, the Shopify
and OpenAI calls, and database failures are all parameters or oracles.

- `feedback_job.dfy` models the sweep in two forms. `Sweep` is the
  specification function. `RunSweep` and `ProcessOne` are the loop as the
  source runs it, with a per-row try/catch, and they are proved equal to
  `Sweep`. The lemmas say what one sweep does and that a second sweep changes
  nothing.
- `fulfillment_webhook.dfy`, `feedback_submit.dfy`,
  `questionnaire_submit.dfy` and `send_feedback_route.dfy` model the route
  handlers. Each POST handler is a module-level method that takes the
  `Database` and whose contract gives every reply together with the exact new
  state; the cron route's GET loader is a function.
- `shopify_service.dfy`, `openai_service.dfy` and `feedback_form.dfy` model
  the pure pieces:
  - the order-note formatter, with a reader that parses the note back;
  - the projection of product query results, and how an order update's
    result is read;
  - the prompt sections and the extraction of the `[`…`]` span from the
    model's reply;
  - the feedback form's keyed-record merge and its submit payload.
- `common.dfy` and `text.dfy` hold shared pieces:
  - JavaScript truthiness, `||` defaults and template rendering;
  - `join` and `split`, with their round trip;
  - decimal `toString`, with its round trip through a parser.

Where the code and its comments or descriptions disagree, the model follows
the code:

- A missing webhook payload throws a 400 `Response` inside the handler's own
  `try`. The handler's `catch` turns it into a 500.
- The cron route's 500 branch cannot be reached. The job catches all of its
  own errors and reports `success: false`, and the route returns that with
  status 200.

## Model

| member | source | states |
|---|---|---|
| Common.FindFirstIndex | app/jobs/sendFeedbackEmails.server.ts:34-39 | the result is the first position whose element satisfies the predicate, or none when no element does (how `findUnique` is read on an unindexed table) |
| Common.Truthy | app/routes/api.questionnaire.submit.tsx:33 | a string field is truthy iff it is present and not empty (the `!x` tests of the handlers); `AuthorizedMeans` and `Decide` state their tests through it |
| Common.OrElse | app/routes/api.feedback.submit.tsx:30-35 | `x \|\| fallback`: the field when truthy, the fallback otherwise; `ResponseRowFields` and `MarkedRowPlaceholders` state the defaults it gives |
| Common.Template | app/services/shopify.server.ts:259-263 | `${x}` in a template literal: the text, or "undefined" for a missing field; `NoteReadsBack` shows each note line carries it |
| Common.ErrorMessage | app/jobs/sendFeedbackEmails.server.ts:114 | an `Error`'s message, or "Unknown error" for any other thrown value; `SelectionFailureChangesNothing` states the failed result carries it |
| Text.Split | app/services/shopify.server.ts:279 | splitting always yields at least one piece (the reader used for joined notes and prompt entries) |
| Text.SplitJoin | app/services/shopify.server.ts:279 | joining lines that hold no separator and splitting on it gives the lines back |
| Text.JoinStartsWith | app/services/shopify.server.ts:279 | a join begins with its first part |
| Text.IndexOf | app/services/openai.server.ts:132 | the first occurrence of a character, or none when it does not occur |
| Text.LastIndexOf | app/services/openai.server.ts:132 | the last occurrence of a character, or none when it does not occur |
| Text.IndexOfAtMost | app/services/openai.server.ts:132 | a `[` at some position means the first one is found there or earlier |
| Text.LastIndexOfAtLeast | app/services/openai.server.ts:132 | a `]` at some position means the last one is found there or later |
| Text.JoinAppend | app/services/openai.server.ts:87 | joining two non-empty lists is joining each with the separator between them |
| Text.JoinBlocks | app/services/openai.server.ts:80-101 | entries made of lines joined by a character, joined by that character doubled, are the lines of all entries joined by it with an empty line between entries |
| Text.BlocksLines | app/services/openai.server.ts:80-101 | every line of such a layout is empty or a line of one of the entries |
| Text.NatText | app/routes/webhooks.fulfillments.create.tsx:23-24 | the decimal text of a natural number is non-empty and all digits |
| Text.IntTextRoundTrip | app/routes/webhooks.fulfillments.create.tsx:23-24 | parsing the decimal text of an integer (`toString()`) gives the integer back |
| Text.IntTextInjective | app/routes/webhooks.fulfillments.create.tsx:23-24 | different integers have different texts |
| Text.NatTextInjective | app/routes/api.feedback.submit.tsx:16-18 | different ids have different texts, so a questionnaire key names one row |
| Store.QuestionnaireForOrder | app/jobs/sendFeedbackEmails.server.ts:34-46 | the questionnaire found for an order has that order id; none is found exactly when no row has it |
| Store.QuestionnaireWithKey | app/routes/api.feedback.submit.tsx:16-22 | the questionnaire found for a key has that key; none is found exactly when no row has it |
| Store.KeyFindsRow | app/routes/api.feedback.submit.tsx:16-18 | in a well-keyed table the key of row i finds row i, and only keys of existing rows find anything |
| Store.MarkSent | app/jobs/sendFeedbackEmails.server.ts:68-74 | marking a tracker sent keeps the number of trackers |
| Store.Database.constructor | app/jobs/sendFeedbackEmails.server.ts:4 | a new database is empty and well keyed |
| Store.Database.CreateQuestionnaire | app/routes/api.questionnaire.submit.tsx:41-55 | the questionnaire is appended with the next id, which is returned; nothing else changes |
| Store.Database.CreateTracker | app/routes/webhooks.fulfillments.create.tsx:39-48 | the tracker is appended with the next id, which is returned; nothing else changes |
| Store.Database.UpdateSent | app/jobs/sendFeedbackEmails.server.ts:68-74 | only the tracker with that id gets status "feedback_sent" and the sent time; the result says whether it existed |
| Store.Database.CreateFeedback | app/jobs/sendFeedbackEmails.server.ts:79-88 | the feedback row is appended; nothing else changes |
| FeedbackJob.Selected | app/jobs/sendFeedbackEmails.server.ts:17-25 | a tracker is selected iff it is in the table, has status "fulfilled", is scheduled at or before `now` (inclusive) and has no sent time; table order is kept |
| FeedbackJob.Due | app/jobs/sendFeedbackEmails.server.ts:17-25 | the `where` filter: status "fulfilled", scheduled at or before `now`, no sent time; `Selected` states that exactly the trackers meeting it are selected |
| FeedbackJob.FeedbackUrl | app/jobs/sendFeedbackEmails.server.ts:52 | `${APP_URL}/feedback/${questionnaire.id}`; `FeedbackLinkFindsQuestionnaire` proves the id read from its end finds the questionnaire |
| FeedbackJob.EmailFor | app/jobs/sendFeedbackEmails.server.ts:55-64 | the data handed to the sender; `EmailContents` states its address, dog name, link and products |
| FeedbackJob.Placeholder | app/jobs/sendFeedbackEmails.server.ts:79-88 | the pending row created per product; `MarkedRowPlaceholders` states its fields |
| FeedbackJob.Outcome | app/jobs/sendFeedbackEmails.server.ts:32-102 | what one iteration does to its tracker, with the early `continue`s and the caught errors; `DeliveryCondition` states when it marks |
| FeedbackJob.ProcessRow | app/jobs/sendFeedbackEmails.server.ts:32-102 | one iteration applied to the tables; `ProcessRowEffect` states what it changes and `ProcessOne` is proved equal to it |
| FeedbackJob.ProcessRows | app/jobs/sendFeedbackEmails.server.ts:31-103 | the loop over the selected rows in order; `ProcessRowsEffect` states its effect |
| FeedbackJob.Sweep | app/jobs/sendFeedbackEmails.server.ts:10-117 | the whole job as a function of the tables; `SweepEffect`, `MarkedBySweep`, `SweepIdempotent` and `SelectionFailureChangesNothing` state its effect, and `RunSweep` is proved equal to it |
| FeedbackJob.Placeholders | app/jobs/sendFeedbackEmails.server.ts:77-90 | one placeholder per stored product |
| FeedbackJob.InsertCount | app/jobs/sendFeedbackEmails.server.ts:77-90 | a failing insert batch writes no more rows than there are products |
| FeedbackJob.DeliveryCondition | app/jobs/sendFeedbackEmails.server.ts:31-74 | a selected tracker is marked iff the lookup succeeds and finds a questionnaire, the products parse, the email is reported sent and the update succeeds |
| FeedbackJob.EmailContents | app/jobs/sendFeedbackEmails.server.ts:52-64 | the email goes to the questionnaire's address and dog name, links to APP_URL/feedback/<questionnaire id>, and lists each product's id, title and image in order |
| FeedbackJob.FeedbackLinkFindsQuestionnaire | app/jobs/sendFeedbackEmails.server.ts:52 | the id at the end of the emailed link finds the questionnaire it was built from |
| FeedbackJob.MarkedRowPlaceholders | app/jobs/sendFeedbackEmails.server.ts:77-90 | with no database failure, a marked tracker gets exactly one pending row per product, in order: the questionnaire's id, the fulfillment id, product id or "unknown", title, image, emailSentAt = now, no rating, comments or response |
| FeedbackJob.PartialInsertLeavesRowSent | app/jobs/sendFeedbackEmails.server.ts:66-102 | because the update runs before the inserts, a failing insert leaves the tracker marked sent with fewer rows than products |
| FeedbackJob.MarkedIdsMember | app/jobs/sendFeedbackEmails.server.ts:31-102 | an id is among those marked by the loop iff some processed row with that id was delivered |
| FeedbackJob.ProcessRowEffect | app/jobs/sendFeedbackEmails.server.ts:32-102 | one iteration changes at most its own tracker (to sent at `now`) and only appends feedback rows |
| FeedbackJob.ProcessRowStep | app/jobs/sendFeedbackEmails.server.ts:31-102 | one more iteration adds its own tracker to those marked (when delivered) and its rows to those appended, and changes nothing else |
| FeedbackJob.ProcessRowsEffect | app/jobs/sendFeedbackEmails.server.ts:31-103 | the loop keeps the questionnaires and the tracker count, marks exactly the delivered trackers and only appends feedback rows |
| FeedbackJob.UntouchedRowsChangeNothing | app/jobs/sendFeedbackEmails.server.ts:41-46 | rows that are skipped or fail leave every table as it was |
| FeedbackJob.NewRowsArePlaceholders | app/jobs/sendFeedbackEmails.server.ts:77-90 | every row the loop inserts is a pending placeholder for a tracker it marked |
| FeedbackJob.SweepEffect | app/jobs/sendFeedbackEmails.server.ts:14-109 | `processed` counts every selected row; a tracker ends sent at the sweep's `now` iff it was due and delivered, and otherwise it is unchanged (trackers with no questionnaire included); questionnaires are untouched; feedback is only appended; ids stay well keyed |
| FeedbackJob.MarkedBySweep | app/jobs/sendFeedbackEmails.server.ts:17-74 | the sweep marks tracker i iff it is due and delivered |
| FeedbackJob.SentRowsNeverReselected | app/jobs/sendFeedbackEmails.server.ts:17-25 | a tracker the sweep changed is now sent and is never selected again, at any later time |
| FeedbackJob.SweepIdempotent | app/jobs/sendFeedbackEmails.server.ts:17-25 | a second sweep at the same time leaves the state unchanged, given the same `Env`: a sender that again refuses the emails it refused and database calls that fail again where they failed (a changed sender may deliver rows the first sweep left; `SentRowsNeverReselected` is the unconditional property) |
| FeedbackJob.SelectionFailureChangesNothing | app/jobs/sendFeedbackEmails.server.ts:110-116 | when the selection query throws, the result is a failure carrying the error's message and nothing changes |
| FeedbackJob.ProcessOne | app/jobs/sendFeedbackEmails.server.ts:32-102 | one iteration, with its early exits and caught errors, leaves exactly the state that the specification of one row gives |
| FeedbackJob.RunSweep | app/jobs/sendFeedbackEmails.server.ts:10-117 | the job leaves exactly the state and returns exactly the result that `Sweep` gives |
| FulfillmentWebhook.ProductListFromLineItems | app/routes/webhooks.fulfillments.create.tsx:27-32 | one product per line item, in order, none when line items are absent; each product has the product id as text, which parses back to the item's id, and the name, quantity and variant id |
| FulfillmentWebhook.ProductsOf | app/routes/webhooks.fulfillments.create.tsx:27-32 | `line_items?.map(...) \|\| []`; `ProductListFromLineItems` states the list it gives |
| FulfillmentWebhook.ProductEntry | app/routes/webhooks.fulfillments.create.tsx:28-31 | one line item as a stored product; `ProductListFromLineItems` states its fields |
| FulfillmentWebhook.NewTracker | app/routes/webhooks.fulfillments.create.tsx:23-48 | the row the handler creates; `NewTrackerFields` and `DueAfterOneWeek` state its fields and when it becomes due |
| FulfillmentWebhook.NewTrackerFields | app/routes/webhooks.fulfillments.create.tsx:23-45 | the new tracker is "fulfilled", not sent, fulfilled at `now`, due `now` plus seven days (strictly later), and its ids parse back to the payload's ids |
| FulfillmentWebhook.DueAfterOneWeek | app/routes/webhooks.fulfillments.create.tsx:35-48 | the sweep selects the new tracker exactly when the sweep time is at least one week after creation |
| FulfillmentWebhook.WebhookThenSweep | app/routes/webhooks.fulfillments.create.tsx:27-46 | stored products read back in the sweep: the email and the placeholder rows carry each line item's product id and name, with "unknown" for a missing id |
| FulfillmentWebhook.HandleFulfillmentCreated | app/routes/webhooks.fulfillments.create.tsx:7-63 | a missing payload or a store failure gives 500 "Webhook processing failed" and no change; otherwise the new tracker is appended and 200 returns its id |
| FeedbackSubmit.Decide | app/routes/api.feedback.submit.tsx:11-22 | invalid iff the questionnaire id is falsy or the feedback is not an array; unknown iff valid and no questionnaire has that id; accepted with the found questionnaire and the items otherwise |
| FeedbackSubmit.LinkedSubmissionAccepted | app/routes/api.feedback.submit.tsx:16-22 | a submission carrying an existing questionnaire's key is accepted for that questionnaire, even with no items |
| FeedbackSubmit.ResponseRow | app/routes/api.feedback.submit.tsx:36 | each inserted row is stamped responded at the request time |
| FeedbackSubmit.ResponseRows | app/routes/api.feedback.submit.tsx:25-40 | one row per submitted item |
| FeedbackSubmit.ResponseRowFields | app/routes/api.feedback.submit.tsx:27-37 | each row keeps the product id, image and rating (no range check); a missing or empty fulfillment id, title or comment becomes "unknown", "Unknown Product" or ""; respondedAt = now; emailSentAt unset |
| FeedbackSubmit.Submit | app/routes/api.feedback.submit.tsx:6-50 | a body that does not parse, or a questionnaire query that throws on a valid body, gives 500 "Failed to submit feedback" with no change; 400 "Invalid request data" or 404 "Questionnaire not found" with no change; otherwise one new row per item is appended and 200 returns the count, or 500 "Failed to submit feedback" keeps the rows already written; existing rows never change |
| QuestionnaireSubmit.DateField | app/routes/api.questionnaire.submit.tsx:48-49 | a date is stored exactly when the form gives a non-empty one, and it is the parsed value |
| QuestionnaireSubmit.HasRequiredFields | app/routes/api.questionnaire.submit.tsx:33-38 | order id, dog name, breed and email are all truthy; `SubmitQuestionnaire` answers 400 exactly when it fails |
| QuestionnaireSubmit.StoredQuestionnaire | app/routes/api.questionnaire.submit.tsx:41-55 | the row created from the form; `NoteShowsStoredRow` and `SubmittedQuestionnaireFound` state what it holds and that the sweep finds it |
| QuestionnaireSubmit.NoteDataOf | app/routes/api.questionnaire.submit.tsx:58-68 | the data handed to the note formatter; `NoteShowsStoredRow` states that the note shows the stored values |
| QuestionnaireSubmit.OrderGid | app/routes/api.questionnaire.submit.tsx:72-74 | the order id as a Shopify GID; `OrderGidProperties` and `NumericOrderGid` state its form |
| QuestionnaireSubmit.OrderGidProperties | app/routes/api.questionnaire.submit.tsx:72-74 | the result always starts with "gid://"; normalising twice equals normalising once; a plain id is prefixed with "gid://shopify/Order/" and can be read back after the prefix |
| QuestionnaireSubmit.NumericOrderGid | app/routes/api.questionnaire.submit.tsx:72-74 | a numeric order id becomes "gid://shopify/Order/<n>" and the number parses back |
| QuestionnaireSubmit.NoteShowsStoredRow | app/routes/api.questionnaire.submit.tsx:41-68 | the note written for an order, read back line by line, shows the values stored in the new questionnaire row, and has a date line exactly when the row stores that date |
| QuestionnaireSubmit.SubmittedQuestionnaireFound | app/routes/api.questionnaire.submit.tsx:41-55 | a stored questionnaire is the one the sweep's lookup finds for its order, when no earlier row names that order |
| QuestionnaireSubmit.SubmitQuestionnaire | app/routes/api.questionnaire.submit.tsx:11-89 | a body that does not parse gives 500 "Failed to submit questionnaire" with nothing stored and no note; 400 "Missing required fields" unless order id, dog name, breed and email are all non-empty, with nothing stored and no note; 500 "Failed to submit questionnaire" with nothing stored when the create throws; otherwise the row is appended, the note goes to the normalised order GID, and 200 returns the new id whatever the note call answers |
| ShopifyService.NoteSlots | app/services/shopify.server.ts:257-277 | the note has one slot per caption, nine in all |
| ShopifyService.PresentLines | app/services/shopify.server.ts:265-271 | one labelled line per slot that has a value, in caption order; `PresentLinesCount` and `ReadAll` state its length and contents |
| ShopifyService.Labeled | app/services/shopify.server.ts:259-276 | a note line: caption, ": " and value; `ReadSlot` shows the reader takes the value back from behind it |
| ShopifyService.NoteLines | app/services/shopify.server.ts:257-277 | the header and then the present lines; `NoteStartsWithHeader` and `NoteLineCount` state its first line and length |
| ShopifyService.FormatNote | app/services/shopify.server.ts:246-280 | the lines joined by "\n"; `NoteReadsBack` proves it reads back line by line |
| ShopifyService.NoteStartsWithHeader | app/services/shopify.server.ts:258 | the first line, and the start of the note, is "🐕 SUBSCRIPTION QUESTIONNAIRE" |
| ShopifyService.NoteLineCount | app/services/shopify.server.ts:257-277 | the note has 8 lines plus one per date given |
| ShopifyService.NoteReadsBack | app/services/shopify.server.ts:257-279 | when no value holds a line break, splitting on "\n" gives the lines back; every label reads back its value verbatim, in the fixed order; the Birthday and Adoption Day lines are present exactly when those dates are given |
| ShopifyService.ReadSlot | app/services/shopify.server.ts:257-277 | among captions that differ in their first two characters, each caption reads back its own slot, or nothing when its line is omitted |
| ShopifyService.NoCaption | app/services/shopify.server.ts:265-271 | a caption unlike every present line reads nothing |
| ShopifyService.NoteValueSkip | app/services/shopify.server.ts:257-263 | lines that do not carry a caption do not change what it reads |
| ShopifyService.SplitLines | app/services/shopify.server.ts:279 | the joined note splits back into its lines when no caption or value holds a line break |
| ShopifyService.ReadAll | app/services/shopify.server.ts:257-279 | below the header, every caption reads back its slot |
| ShopifyService.PresentLinesCount | app/services/shopify.server.ts:265-271 | there is one line per slot that has a value |
| ShopifyService.PresentLinesAvoid | app/services/shopify.server.ts:257-277 | lines built from captions and values without a character do not contain it |
| ShopifyService.CaptionsDistinct | app/services/shopify.server.ts:259-276 | the nine labels differ in their first two characters and hold no line break |
| ShopifyService.LineStart | app/services/shopify.server.ts:259-276 | a labelled line does not begin with a label that differs from its own in the first two characters |
| ShopifyService.HeaderStart | app/services/shopify.server.ts:258 | the header line does not begin with any label |
| ShopifyService.NoteAccepted | app/services/shopify.server.ts:38-49 | false iff the call throws or reports a non-empty list of user errors |
| ShopifyService.CatalogProjection | app/services/shopify.server.ts:99-113 | one product per edge, in order, keeping id, title, description, type and tags, with price from the first variant and image from the first image (absent when there is none); [] when the call throws or the data is missing |
| ShopifyService.Catalog | app/services/shopify.server.ts:99-113 | the projection of the product query's answer; `CatalogProjection` states it |
| ShopifyService.CatalogEntry | app/services/shopify.server.ts:100-108 | one edge as a catalog product; `CatalogProjection` states its fields |
| ShopifyService.FirstPrice | app/services/shopify.server.ts:106 | the first variant's price, if any; `CatalogProjection` states it |
| ShopifyService.FirstImage | app/services/shopify.server.ts:107 | the first image's URL, if any; `CatalogProjection` states it |
| OpenAIService.RatingTextReadsBack | app/services/openai.server.ts:84 | "Not rated" iff the rating is missing or 0; otherwise the text ends in "/5" and the number before it parses back to the rating |
| OpenAIService.RatingText | app/services/openai.server.ts:84 | `${rating}/5`, or "Not rated" for a missing or zero rating; `RatingTextReadsBack` proves the rating reads back |
| OpenAIService.FeedbackLines | app/services/openai.server.ts:83-85 | the three lines of a feedback entry; `FeedbackEntryReadsBack` states them |
| OpenAIService.ProductLines | app/services/openai.server.ts:95-99 | the five lines of a product entry; `ProductEntryReadsBack` states them |
| OpenAIService.FeedbackSection | app/services/openai.server.ts:77-89 | the feedback part of the prompt; `FeedbackSectionShape` and `FeedbackSectionReadsBack` state its two forms |
| OpenAIService.ProductSection | app/services/openai.server.ts:91-101 | the product part of the prompt; `ProductSectionReadsBack` states its lines |
| OpenAIService.FeedbackSectionReadsBack | app/services/openai.server.ts:77-89 | when no title or comment holds a line break, a non-empty section splits into "PREVIOUS FEEDBACK:" and then each item's three lines in order, with one empty line between items |
| OpenAIService.ProductSectionReadsBack | app/services/openai.server.ts:91-101 | when no field holds a line break, a non-empty product section splits into each product's five lines in order, with one empty line between products |
| OpenAIService.FeedbackGroupsWithoutBreaks | app/services/openai.server.ts:83-85 | the lines of past feedback without breaks in its fields hold no break |
| OpenAIService.BlocksWithoutBreaks | app/services/openai.server.ts:87 | entries' lines without breaks, laid out with empty lines between, hold no break |
| OpenAIService.JoinAfterHeader | app/services/openai.server.ts:79-80 | a header line, a break and the joined entries are the join of the header and the entries |
| OpenAIService.FeedbackEntries | app/services/openai.server.ts:80-87 | one entry per feedback item |
| OpenAIService.ProductEntries | app/services/openai.server.ts:92-101 | one entry per available product |
| OpenAIService.NumberReadsBack | app/services/openai.server.ts:83 | the number in front of an entry's first line parses back to its 1-based position |
| OpenAIService.FeedbackSectionShape | app/services/openai.server.ts:52 | the section is "No previous feedback available (first box)" iff the list is absent or empty, and otherwise starts with "PREVIOUS FEEDBACK:" and a line break |
| OpenAIService.FeedbackEntryReadsBack | app/services/openai.server.ts:80-87 | an entry splits back into its three lines: the 1-based position and title, the rating text, and the comments ("No comments" when missing or empty) |
| OpenAIService.ProductEntryReadsBack | app/services/openai.server.ts:92-101 | an entry splits back into its five lines, the first reading back the 1-based position; tags are joined with ", " |
| OpenAIService.RatingNoBreak | app/services/openai.server.ts:84 | the rating text holds no line break |
| OpenAIService.ExtractArray | app/services/openai.server.ts:132-137 | the parsed text is never longer than the reply |
| OpenAIService.ExtractSpan | app/services/openai.server.ts:132-134 | when a "[" comes before a "]", the parsed text runs from the first "[" to the last "]" |
| OpenAIService.ExtractFromSpan | app/services/openai.server.ts:132-134 | a span already bracketed is parsed as it is |
| OpenAIService.ExtractWithSpan | app/services/openai.server.ts:132-134 | when the first `[` comes before the last `]`, the span between them is parsed, it is bracketed at both ends, and extracting from it again changes nothing |
| OpenAIService.SpanFound | app/services/openai.server.ts:132-136 | some `[` has a `]` after it iff the first `[` comes before the last `]` (which decides between the span and the whole text) |
| OpenAIService.ExtractArraySpec | app/services/openai.server.ts:132-137 | with a "[" before a "]", the parsed text is the span from the first "[" to the last "]", bracketed at both ends; otherwise the whole text is parsed; extracting twice equals extracting once |
| OpenAIService.Recommend | app/services/openai.server.ts:126-151 | every failure surfaces as "Failed to generate product recommendations" |
| OpenAIService.ResponseText | app/services/openai.server.ts:126 | `content \|\| "[]"`; `RecommendSpec` states the text it gives |
| OpenAIService.RecommendSpec | app/services/openai.server.ts:126-151 | fails iff the call throws or the extracted span does not parse; otherwise fullResponse is the raw text ("[]" when the content is missing or empty) and the recommendations are what the span parses to; missing content gives no recommendations |
| FeedbackForm.UpdateFeedbackSpec | app/components/FeedbackQuestionnaire.tsx:40-48 | the entry for the product gets that id, title and field; its other field is kept; other entries are unchanged; a key is added only for a new product, so there is one entry per product id |
| FeedbackForm.UpdateFeedback | app/components/FeedbackQuestionnaire.tsx:34-49 | the merge `{ ...prev, [productId]: { ...prev[productId], productId, productTitle, [field]: value } }`; `UpdateFeedbackSpec` states its effect |
| FeedbackForm.ApplyEvents | app/components/FeedbackQuestionnaire.tsx:137-170 | the record after a sequence of star clicks and comment edits; `PageRatingsInRange` states what it keeps |
| FeedbackForm.SubmittedItem | app/components/FeedbackQuestionnaire.tsx:61-64 | the item the page sends for a draft; `PageRowsLackFulfillment` states the rows stored from it |
| FeedbackForm.Payload | app/components/FeedbackQuestionnaire.tsx:61-64 | one item per key of the record |
| FeedbackForm.PayloadOnePerTouchedProduct | app/components/FeedbackQuestionnaire.tsx:61-64 | the payload holds exactly one item for each product the customer touched and none for the others |
| FeedbackForm.PageRatingsInRange | app/components/FeedbackQuestionnaire.tsx:137-152 | from the empty record, after any clicks and keystrokes on the page, every rating is between 1 and 5 |
| FeedbackForm.PageRowsLackFulfillment | app/components/FeedbackQuestionnaire.tsx:61-64 | rows stored from the page's payload carry the drafts' product ids, titles and ratings, and "unknown" as fulfillment id |
| SendFeedbackRoute.AuthorizedMeans | app/routes/api.jobs.send-feedback.tsx:15-20 | a call is admitted iff no (or an empty) secret is configured, or the header is "Bearer " followed by exactly the secret |
| SendFeedbackRoute.Authorized | app/routes/api.jobs.send-feedback.tsx:15-20 | the bearer-secret gate; `AuthorizedMeans` states when it admits a call |
| SendFeedbackRoute.Trigger | app/routes/api.jobs.send-feedback.tsx:12-35 | 401 "Unauthorized" with no change when refused; otherwise the sweep runs and its result comes back with status 200, a failed sweep included |
| SendFeedbackRoute.Loader | app/routes/api.jobs.send-feedback.tsx:37-39 | a GET is answered with 405 and a hint to use POST |

## Left out

- Authentication (`authenticate.admin`, `authenticate.webhook`) is not modelled. Every request reaches the handler body.
- The GraphQL requests, the OpenAI completion call and the email sender are I/O. Their answers are parameters: `OrderUpdateReply`, `ProductsReply`, `Completion` and the `send` oracle.
- The email sender in app/services/email.server.ts always returns true (line 69). The model lets it return either value.
- A sender that throws is modelled the same as one that returns false. Both leave the row untouched.
- Prisma's generated cuid ids are modelled as row positions. A questionnaire's public id is that number in decimal.
- The unique constraint on `orderId` is not enforced. The lookup returns the first matching row.
- `JSON.parse` and `JSON.stringify` are not modelled as text. The stored product list is the list of values, or `Unparseable`. Product entries with non-string ids or titles are not modelled.
- The recommendation parser is a parameter. The `confidence` number is left out, because it is a floating-point value.
- Dates are integer milliseconds. `new Date(text)` and `toLocaleDateString` are the `parseDate` and `showDate` parameters.
- Invalid dates, time zones, daylight-saving time and `setDate` calendar arithmetic are left out. Seven days is a fixed 604800000 ms.
- The webhook reads the clock twice. The model reads it once.
- Concurrency is left out: overlapping sweeps, and the order of inserts inside `Promise.all`. A batch of inserts is modelled as sequential appends. A failure after k of them leaves k rows.
- Database failures are per-tracker flags in the sweep, and booleans (`createFails`, `lookupFails`) or counts (`insertFailsAfter`) in the handlers. Their error texts are not modelled.
- A request body that `request.json()` cannot parse is `None` in `Submit` and `SubmitQuestionnaire`. The webhook's payload parsing belongs to `authenticate.webhook`, which is not modelled.
- JSON `null` in a request field is not modelled. A field is either a string or missing, and a missing one prints as "undefined" in the order note. A body such as `"dogGender": null` from a caller other than the app's own form would give "Gender: null" in the source.
- `Object.values` lists integer-like keys in numeric order before the others. The model keeps insertion order for every key.
- The React rendering, the submit `fetch` and its success and error banners are left out. The form's record is modelled as a value; the functional state update is not.
- The fixed paragraphs of the OpenAI prompts and the dog-profile lines are left out. `generateFeedbackSummary` is left out, as is the recommendation page that calls `getProductRecommendations`.
- `getOrder`, `getFulfillment`, the order-created webhook and the demo product action do I/O only. They are not part of this model.
- SendFeedbackRoute.Trigger: the route's own 500 reply for a thrown error is not modelled, because the job catches all of its errors itself and that branch cannot be reached.
- OpenAIService.RecommendSpec: parse failures and call failures are not told apart, because the outer catch rewraps both with the same message.
