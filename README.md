# PMP experience generator: a Dafny model of its request path

The PMP experience generator is a small web application. A project manager
describes a project in fourteen text fields. The Express back end checks the
fields against a schema, fills them into a fixed prompt and asks a language
model for a PMI-style experience entry. It answers with that text and six of
the identifying fields. The React front end shows the result and lets the user
copy it or download it as `pmp-experience-<title>.txt`.

This project models three files of that system as pure Dafny functions and
proves properties about them:

- `backend/routes/generate.js` is modelled in `generate.dfy`. `Parse` is the
  fourteen-field schema and the issues it reports. `Prompt` is the prompt
  template, modelled as a generic template renderer, `Render`. `Handle` is the
  route handler with its four answers: 400 for a refused body, 500 for a
  missing key, 200 for a generated text, and 500 when the generator throws.
- `backend/server.js` is modelled in `server.dfy`. `AllowedOrigins` is the
  allow-list read from `ALLOWED_ORIGINS`, and `CheckOrigin` is the origin
  callback. It also has the health endpoint, the error middleware, and
  `Serve`, which takes a request through the stack in registration order:
  body parser, then CORS, then the routes.
- `frontend/components/generated-output.tsx` is modelled in
  `generated_output.dfy`. `CopyText` and `DownloadText` are the two export
  texts. `Slug` and `FileName` give the download file name.

Supporting modules:

- `strings.dfy` holds JavaScript's `split` and `join` on one character, and
  proves that they are inverses.
- `json.dfy` holds the shape of a parsed JSON body. A missing key reads as
  `undefined`.
- `project.dfy` holds the fourteen fields, their keys and their messages.
- `http.dfy` holds the response shapes.
- `wrappers.dfy` holds `Option`, `Result` and JavaScript truthiness of an
  optional string.

The text generator is a parameter of `Handle`: a function from the prompt to
`Generated(text)` or `Threw(message)`. Each answer records the prompt the
generator received, or `None` when the handler never called it. The lemmas use
that record to state which paths reach the generator.

Where the behaviour of the code differs from the wider description of the
system, the model follows the code:

- Field values are not trimmed. A field holding only `" "` passes the schema
  (`Generate.WhitespaceOnlyAdmitted`).
- Only an empty string gets the field's own message, such as "Project title
  is required". A missing or non-string field gets a type-mismatch issue that
  names the kind received.
- A refused origin does not get a 403. The callback raises an error, and the
  error middleware answers 500 "Something went wrong!" / "Not allowed by
  CORS".
- The body parser runs before CORS. A malformed JSON body is therefore
  answered 500 by the error middleware, whatever the origin.
- `ALLOWED_ORIGINS` entries are not trimmed. With `"a, b"`, the second entry
  is `" b"` (`Server.SpaceAfterCommaNotTrimmed`).
- Nothing requires the generated text to be non-empty. It is passed through
  as received.

## Model

| member | source | states |
|---|---|---|
| Generate.ParseAcceptsExactly | backend/routes/generate.js:9-24 | the schema admits a body if and only if it is an object and every one of the fourteen keys holds a string of at least one character |
| Generate.IssuesSound | backend/routes/generate.js:9-24 | every reported issue belongs to a schema field whose value is refused, and is exactly the issue for that value: a missing or non-string value gives a type mismatch naming the kind received, and an empty string gives the field's own message |
| Generate.IssuesComplete | backend/routes/generate.js:9-24 | every refused field in the list has its issue among the reported issues |
| Generate.IssuesNameRefused | backend/routes/generate.js:9-24 | the reported issues name the refused fields in schema order, each exactly once |
| Generate.RejectionReportsEveryRefusedField | backend/routes/generate.js:9-24 | a refused object body reports every bad field, not only the first, in schema order, with one issue each and no other issues |
| Generate.EmptyOrMissingFieldReported | backend/routes/generate.js:10-23 | an empty field is refused with its own message, such as "Project title is required"; a missing field is refused as a type mismatch that received `undefined` |
| Generate.WhitespaceOnlyAdmitted | backend/routes/generate.js:10-23 | values are not trimmed: fourteen fields of `" "` are admitted and kept as `" "` |
| Generate.UnknownKeysIgnored | backend/routes/generate.js:9-24 | adding a key outside the schema changes neither the verdict nor the validated record |
| Generate.RecordOfAgree | backend/routes/generate.js:9-24 | two bodies that agree on the fourteen fields give the same validated record |
| Generate.ParsedRecordIsVerbatim | backend/routes/generate.js:29 | an admitted body is an object, and each field of the validated data is the string the body sent for it, unchanged |
| Generate.IssuesInAgree | backend/routes/generate.js:9-24 | two bodies that agree on the fourteen fields get the same issues |
| Generate.RecordOfGet | backend/routes/generate.js:29 | each field of the validated record is that field's string in the body |
| Generate.RenderLength | backend/routes/generate.js:40-89 | a rendered template is exactly as long as its literal segments and inserted values together |
| Generate.RenderPlacesValue | backend/routes/generate.js:40-89 | each value of a template literal appears verbatim at its place: after the segments and values before it |
| Generate.RenderPlacesSegment | backend/routes/generate.js:40-89 | each literal segment of a template appears unchanged at its place |
| Generate.RenderNeighbours | backend/routes/generate.js:40-89 | value i stands directly after segment i and directly before segment i + 1 |
| Generate.PromptPlacesFields | backend/routes/generate.js:40-57 | each of the fourteen validated values appears verbatim in the prompt, right after the label that introduces it and right before the next literal text, in template order |
| Generate.RenderFrame | backend/routes/generate.js:40-89 | a rendered template starts with its first segment and ends with its last |
| Generate.PromptFrame | backend/routes/generate.js:40-89 | whatever the record holds, the prompt opens with the generator's role statement and the first label, and ends with the formatting instructions |
| Generate.TotalLengthAppend | backend/routes/generate.js:40-89 | the total length of two lists of template pieces is the sum of their totals |
| Generate.RefusedBodyNeverReachesGenerator | backend/routes/generate.js:112-121 | a body the schema refuses is answered 400 "Validation error" with its issues, whatever the key; the generator is not called |
| Generate.MissingKeyNeverReachesGenerator | backend/routes/generate.js:32-37 | with an admitted body and `OPENAI_API_KEY` unset or empty, the answer is 500 "API key not configured" with its message, and the generator is not called |
| Generate.GeneratedResultEchoesInput | backend/routes/generate.js:39-111 | with an admitted body and a key, the generator receives the rendered prompt; the answer is 200 with `success: true`, the six identifying fields as the body sent them, and the generated text unchanged |
| Generate.GeneratorFailureEchoesNothing | backend/routes/generate.js:123-127 | when the generator throws, the answer is 500 "Failed to generate experience" with the thrown message, after the generator was called with the prompt |
| Generate.HandleOutcomes | backend/routes/generate.js:26-129 | the status is always 200, 400 or 500; it is 400 exactly when the schema refuses the body; the generator is called exactly when the body is admitted and the key is set; the answer is 200 exactly when the generator returned text, and only a 200 carries `success` |
| Generate.UnknownKeysDoNotMatter | backend/routes/generate.js:9-29 | the handler answers the same with or without a key outside the schema |
| Project.Rank | backend/routes/generate.js:9-24 | every field has a position in the schema's declaration order |
| Json.Member | backend/routes/generate.js:29 | reading a key that the body does not have yields `undefined` |
| Strings.Split | backend/server.js:15 | `split` always yields at least one piece |
| Strings.SplitPiecesFree | backend/server.js:15 | no piece of a split contains the separator |
| Strings.JoinSplit | backend/server.js:15 | joining the pieces of a split with the separator gives the original string back |
| Strings.SplitJoin | backend/server.js:15 | splitting a join gives the pieces back when none of them contains the separator |
| Strings.SplitWithoutSeparator | backend/server.js:15 | a string without the separator splits into itself alone |
| Strings.SplitAround | backend/server.js:15 | splitting `a + sep + b` gives the pieces of `a` followed by the pieces of `b` |
| Strings.SplitLine | backend/server.js:15 | a piece without the separator, followed by the separator, comes off as the first piece |
| Server.AllowedOrigins | backend/server.js:15 | the allow-list always has at least one entry |
| Server.IndexOf | backend/server.js:23 | `indexOf` returns -1 exactly when the origin is absent; otherwise it returns the first position that holds it |
| Server.NoOriginAdmitted | backend/server.js:21 | a request without an Origin header is admitted |
| Server.AdmittedExactlyWhenListed | backend/server.js:19-27 | a non-empty origin is admitted exactly when it equals an entry of the list; otherwise it is refused with "Not allowed by CORS" |
| Server.DefaultAllowList | backend/server.js:15-23 | with `ALLOWED_ORIGINS` unset or empty, the list is `["http://localhost:3000"]` and only that origin is admitted |
| Server.AllowListKeepsVariable | backend/server.js:15 | a set `ALLOWED_ORIGINS` is split without losing or changing a character: joining the entries with commas gives the variable back |
| Server.SpaceAfterCommaNotTrimmed | backend/server.js:15-23 | with `"a, b"` the entries are `a` and `" b"`, so origin `b` is refused and only `a` is admitted |
| Server.RefusedOriginNeverReachesRoutes | backend/server.js:12-48 | a parsed request from an unlisted origin is answered 500 "Something went wrong!" / "Not allowed by CORS" before any route runs |
| Server.AdmittedRequestReachesHandler | backend/server.js:17-39 | an admitted generation request with a parsed body is answered by the route handler alone |
| Server.HealthIsConstant | backend/server.js:34-36 | an admitted health request is answered 200 `{status: "ok", message: "PMP Experience Generator API is running"}`, and the generator is not called |
| Server.MalformedBodyAnsweredFirst | backend/server.js:12-48 | a malformed JSON body is answered 500 "Something went wrong!" with the parser's message, whatever the origin and route |
| Server.GeneratorOnlyBehindEveryCheck | backend/server.js:12-39 | the generator is called exactly when all of these hold: the body parsed, the origin is admitted, the route is the generation route, the schema admits the body, and the key is set |
| GeneratedOutput.CopyMatchesDownload | frontend/components/generated-output.tsx:24-44 | the copied text and the downloaded text are the same |
| GeneratedOutput.ExportFrame | frontend/components/generated-output.tsx:24-30 | the export text starts with "Project Title: " and the title, and ends with a blank line followed by the generated text, unchanged |
| GeneratedOutput.ExportLines | frontend/components/generated-output.tsx:24-30 | when the identifying fields hold no line break, the lines of the export text are the five labelled lines, one empty line, and then the lines of the generated text |
| GeneratedOutput.SkipWhitespace | frontend/components/generated-output.tsx:50 | the result is what is left after the whole leading run of whitespace |
| GeneratedOutput.DashifyIsSqueeze | frontend/components/generated-output.tsx:50 | the greedy replacement of each `\s+` match by "-" equals a character-by-character reading that emits one dash at the start of each whitespace run |
| GeneratedOutput.SqueezeAppend | frontend/components/generated-output.tsx:50 | the character-by-character reading of a concatenation is the reading of each part, the second part continuing in the state the first left |
| GeneratedOutput.MaximalRunBecomesOneDash | frontend/components/generated-output.tsx:50 | each maximal run of whitespace, whatever its length, becomes exactly one "-" |
| GeneratedOutput.DashifyCharacters | frontend/components/generated-output.tsx:50 | every character of the replacement is a dash or a character of the input |
| GeneratedOutput.DashifyRemovesWhitespace | frontend/components/generated-output.tsx:50 | no whitespace is left after the replacement |
| GeneratedOutput.DashifyWhitespaceFreeIdentity | frontend/components/generated-output.tsx:50 | a string without whitespace is left unchanged |
| GeneratedOutput.SlugOfWhitespaceFreeTitle | frontend/components/generated-output.tsx:50 | a title without whitespace is only lower-cased |
| GeneratedOutput.SlugIdempotent | frontend/components/generated-output.tsx:50 | slugging a slug changes nothing |
| GeneratedOutput.FileNameShape | frontend/components/generated-output.tsx:50 | the file name is "pmp-experience-", then the slug of the title, then ".txt", and it contains no whitespace |

## Left out

- The language-model call (`generateText` with `gpt-4o-mini`, temperature 0.7, at most 1500 tokens) is not modelled. It is the parameter `generate`, a function of the prompt alone; its randomness, latency and token limit are outside the model.
- Generate.Handle: a thrown value that is not an `Error` is not modelled, because its message would be `undefined`. The generator's failure is a `Threw(message)` with a string.
- Zod's default wording for type mismatches and the `path` and `code` fields of an issue are not modelled. An issue records its field, the kind received or the field's own message, and the order. Number values are not modelled, only their kind.
- The `console` logging (including `err.stack`), `dotenv` loading, `PORT` and `listen`, and Express's default 404 for other paths are not modelled. `express.json`'s size limit and content-type check are not modelled; its result is an input, either parsed or malformed.
- The CORS response headers and `credentials: true` are not modelled, because they only add headers. The model covers the callback's verdict and where a refusal goes.
- GeneratedOutput.Lower: only ASCII A-Z are lower-cased. JavaScript's `toLowerCase` also maps non-ASCII letters by Unicode case tables, which the model does not include.
- The clipboard, `Blob`, object URLs, the DOM link, and the two-second "Copied!" timer in `generated-output.tsx` are not modelled, because they are browser I/O. The texts and the file name they receive are modelled.
- `frontend/components/experience-form.tsx`, `frontend/components/header.tsx` and `frontend/app/page.tsx` are not part of this model. They are the form, the header and the page layout.
- Concurrency between requests is not modelled. Each request is handled on its own.
