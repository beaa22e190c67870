/** The `POST /api/generate` route (backend/routes/generate.js): the request
    schema, the prompt template and the handler that picks the response.
    The text generator is a parameter: a function from the prompt to its
    outcome. */
module Generate {
  import opened Wrappers
  import Strings
  import Json
  import opened Project
  import opened Http

  // ---------------------------------------------------------------------
  // The schema check
  // ---------------------------------------------------------------------

  /** What `z.string().min(1, …)` admits: a string of at least one
      character. Nothing is trimmed, so " " is admitted. */
  predicate Admits(v: Json.Value) {
    v.Str? && |v.s| >= 1
  }

  /** The issue the schema reports for a field whose value it refuses. */
  function IssueFor(f: Field, v: Json.Value): Issue {
    if v.Str? then FieldIssue(f, TooShort(Message(f)))
    else FieldIssue(f, WrongType(Json.KindOf(v)))
  }

  /** The value the body gives a field (`undefined` when it has none). */
  function ValueOf(members: map<string, Json.Value>, f: Field): Json.Value {
    Json.Member(members, Key(f))
  }

  /** The issues of the listed fields, visited in list order. */
  function IssuesIn(fields: seq<Field>, members: map<string, Json.Value>): seq<Issue> {
    if fields == [] then []
    else
      var v := ValueOf(members, fields[0]);
      (if Admits(v) then [] else [IssueFor(fields[0], v)]) + IssuesIn(fields[1..], members)
  }

  /** The string the body gives a field; only read once the schema admitted it. */
  function StringOf(members: map<string, Json.Value>, f: Field): string {
    match ValueOf(members, f)
    case Str(s) => s
    case _ => ""
  }

  /** The validated record: only the schema's own fields, unknown keys dropped. */
  function RecordOf(m: map<string, Json.Value>): Record {
    Record(
      StringOf(m, ProjectTitle), StringOf(m, OrganizationName), StringOf(m, StartDate),
      StringOf(m, EndDate), StringOf(m, TotalHours), StringOf(m, Role),
      StringOf(m, ProjectDescription), StringOf(m, Deliverables), StringOf(m, Challenges),
      StringOf(m, Initiating), StringOf(m, Planning), StringOf(m, Executing),
      StringOf(m, MonitoringControlling), StringOf(m, Closing))
  }

  lemma RecordOfGet(m: map<string, Json.Value>, f: Field)
    ensures RecordOf(m).Get(f) == StringOf(m, f)
  {
  }

  /** `projectSchema.parse(body)`: the record, or every issue found. */
  function Parse(body: Json.Value): Result<Record, seq<Issue>> {
    match body
    case Object(m) =>
      var issues := IssuesIn(SchemaOrder, m);
      if issues == [] then Ok(RecordOf(m)) else Err(issues)
    case _ => Err([NotAnObject(Json.KindOf(body))])
  }

  // ---------------------------------------------------------------------
  // Lemmas about the schema check
  // ---------------------------------------------------------------------

  /** `issue` is the issue of one of `fields` whose value the schema refuses. */
  predicate IssueOfRefused(fields: seq<Field>, m: map<string, Json.Value>, issue: Issue) {
    && issue.FieldIssue?
    && issue.field in fields
    && !Admits(ValueOf(m, issue.field))
    && issue == IssueFor(issue.field, ValueOf(m, issue.field))
  }

  /** Every issue of a list of fields is the issue of one of those fields
      whose value the schema refuses. */
  lemma {:induction false} IssuesSound(fields: seq<Field>, m: map<string, Json.Value>)
    ensures forall issue :: issue in IssuesIn(fields, m) ==> IssueOfRefused(fields, m, issue)
  {
    if fields != [] {
      IssuesSound(fields[1..], m);
      var v := ValueOf(m, fields[0]);
      var head := if Admits(v) then [] else [IssueFor(fields[0], v)];
      var tail := IssuesIn(fields[1..], m);
      assert IssuesIn(fields, m) == head + tail;
      forall issue | issue in tail ensures IssueOfRefused(fields, m, issue) {
        assert IssueOfRefused(fields[1..], m, issue);
      }
    }
  }

  /** Every field of the list whose value the schema refuses has its issue
      in the list. */
  lemma {:induction false} IssuesComplete(fields: seq<Field>, m: map<string, Json.Value>, f: Field)
    requires f in fields && !Admits(ValueOf(m, f))
    ensures IssueFor(f, ValueOf(m, f)) in IssuesIn(fields, m)
  {
    var v := ValueOf(m, fields[0]);
    var head := if Admits(v) then [] else [IssueFor(fields[0], v)];
    var tail := IssuesIn(fields[1..], m);
    assert IssuesIn(fields, m) == head + tail;
    if f != fields[0] {
      IssuesComplete(fields[1..], m, f);
    }
  }

  /** The fields of the field issues of a list, in order. */
  function ReportedFields(issues: seq<Issue>): seq<Field> {
    if issues == [] then []
    else (if issues[0].FieldIssue? then [issues[0].field] else []) + ReportedFields(issues[1..])
  }

  /** The fields of the list whose value the schema refuses, in list order. */
  function RefusedFields(fields: seq<Field>, m: map<string, Json.Value>): seq<Field> {
    if fields == [] then []
    else (if Admits(ValueOf(m, fields[0])) then [] else [fields[0]]) + RefusedFields(fields[1..], m)
  }

  lemma {:induction false} ReportedFieldsAppend(a: seq<Issue>, b: seq<Issue>)
    ensures ReportedFields(a + b) == ReportedFields(a) + ReportedFields(b)
  {
    if a == [] {
      assert a + b == b;
    } else {
      var ab := a + b;
      assert ab != [] && ab[0] == a[0] && ab[1..] == a[1..] + b;
      ReportedFieldsAppend(a[1..], b);
      var first := if a[0].FieldIssue? then [a[0].field] else [];
      calc {
        ReportedFields(ab);
        first + ReportedFields(a[1..] + b);
        first + (ReportedFields(a[1..]) + ReportedFields(b));
        (first + ReportedFields(a[1..])) + ReportedFields(b);
      }
    }
  }

  /** The issues name the refused fields, each once, in list order. */
  lemma {:induction false} IssuesNameRefused(fields: seq<Field>, m: map<string, Json.Value>)
    ensures ReportedFields(IssuesIn(fields, m)) == RefusedFields(fields, m)
  {
    if fields != [] {
      IssuesNameRefused(fields[1..], m);
      var v := ValueOf(m, fields[0]);
      var head := if Admits(v) then [] else [IssueFor(fields[0], v)];
      ReportedFieldsAppend(head, IssuesIn(fields[1..], m));
      if !Admits(v) {
        assert ReportedFields(head) == [fields[0]] by {
          assert head[1..] == [];
        }
      }
    }
  }

  /** Two bodies that agree on the schema's fields get the same issues. */
  lemma {:induction false} IssuesInAgree(fields: seq<Field>, m1: map<string, Json.Value>, m2: map<string, Json.Value>)
    requires forall f :: ValueOf(m1, f) == ValueOf(m2, f)
    ensures IssuesIn(fields, m1) == IssuesIn(fields, m2)
  {
    if fields != [] {
      IssuesInAgree(fields[1..], m1, m2);
    }
  }

  /** The schema admits a body exactly when it is an object whose fourteen
      fields are all strings of at least one character. */
  lemma ParseAcceptsExactly(body: Json.Value)
    ensures Parse(body).Ok? <==> body.Object? && forall f :: Admits(ValueOf(body.members, f))
  {
    if body.Object? {
      var m := body.members;
      var issues := IssuesIn(SchemaOrder, m);
      IssuesSound(SchemaOrder, m);
      if issues != [] {
        assert IssueOfRefused(SchemaOrder, m, issues[0]);
      }
      forall f | !Admits(ValueOf(m, f)) ensures issues != [] {
        assert SchemaOrder[Rank(f)] == f;
        IssuesComplete(SchemaOrder, m, f);
      }
    }
  }

  /** An admitted body's record holds each field's string exactly as sent. */
  lemma ParsedRecordIsVerbatim(body: Json.Value)
    requires Parse(body).Ok?
    ensures body.Object?
    ensures forall f :: ValueOf(body.members, f) == Json.Str(Parse(body).value.Get(f))
  {
    ParseAcceptsExactly(body);
    var m := body.members;
    forall f ensures ValueOf(m, f) == Json.Str(RecordOf(m).Get(f)) {
      assert Admits(ValueOf(m, f));
      RecordOfGet(m, f);
    }
  }

  /** A refused object body is answered with one issue per refused field,
      in schema order, each the issue of that field's own value; so every
      bad field is reported, not only the first. */
  lemma RejectionReportsEveryRefusedField(m: map<string, Json.Value>)
    requires Parse(Json.Object(m)).Err?
    ensures var issues := Parse(Json.Object(m)).error;
      && ReportedFields(issues) == RefusedFields(SchemaOrder, m)
      && (forall issue :: issue in issues ==> IssueOfRefused(SchemaOrder, m, issue))
      && (forall f :: !Admits(ValueOf(m, f)) ==> IssueFor(f, ValueOf(m, f)) in issues)
  {
    IssuesNameRefused(SchemaOrder, m);
    IssuesSound(SchemaOrder, m);
    forall f | !Admits(ValueOf(m, f)) ensures IssueFor(f, ValueOf(m, f)) in IssuesIn(SchemaOrder, m) {
      assert SchemaOrder[Rank(f)] == f;
      IssuesComplete(SchemaOrder, m, f);
    }
  }

  /** An empty string is refused with the field's own message; a missing
      key is refused as a type mismatch that received `undefined`. */
  lemma EmptyOrMissingFieldReported(m: map<string, Json.Value>, f: Field)
    requires ValueOf(m, f) == Json.Str("") || Key(f) !in m
    ensures Parse(Json.Object(m)).Err?
    ensures ValueOf(m, f) == Json.Str("") ==>
      FieldIssue(f, TooShort(Message(f))) in Parse(Json.Object(m)).error
    ensures Key(f) !in m ==>
      FieldIssue(f, WrongType(Json.UndefinedKind)) in Parse(Json.Object(m)).error
  {
    ParseAcceptsExactly(Json.Object(m));
    RejectionReportsEveryRefusedField(m);
  }

  /** Whitespace is not trimmed: a body whose every field is " " passes. */
  lemma WhitespaceOnlyAdmitted(m: map<string, Json.Value>)
    requires forall f :: ValueOf(m, f) == Json.Str(" ")
    ensures Parse(Json.Object(m)) == Ok(Record(" ", " ", " ", " ", " ", " ", " ", " ", " ", " ", " ", " ", " ", " "))
  {
    ParseAcceptsExactly(Json.Object(m));
  }

  /** Keys outside the schema change neither the verdict nor the record. */
  lemma UnknownKeysIgnored(m: map<string, Json.Value>, k: string, v: Json.Value)
    requires forall f :: Key(f) != k
    ensures Parse(Json.Object(m[k := v])) == Parse(Json.Object(m))
  {
    var m' := m[k := v];
    forall f ensures ValueOf(m', f) == ValueOf(m, f) {
      assert Key(f) != k;
    }
    IssuesInAgree(SchemaOrder, m', m);
    RecordOfAgree(m', m);
  }

  lemma RecordOfAgree(m1: map<string, Json.Value>, m2: map<string, Json.Value>)
    requires forall f :: ValueOf(m1, f) == ValueOf(m2, f)
    ensures RecordOf(m1) == RecordOf(m2)
  {
    forall f ensures StringOf(m1, f) == StringOf(m2, f) {
      assert ValueOf(m1, f) == ValueOf(m2, f);
    }
  }

  // ---------------------------------------------------------------------
  // The prompt template
  // ---------------------------------------------------------------------

  /** Total length of a list of strings. */
  function TotalLength(xs: seq<string>): nat {
    if xs == [] then 0 else |xs[0]| + TotalLength(xs[1..])
  }

  /** A template literal: the literal segments with one value between each
      neighbouring pair, inserted as they are. */
  function Render(segments: seq<string>, values: seq<string>): string
    requires |segments| == |values| + 1
  {
    if values == [] then segments[0]
    else segments[0] + values[0] + Render(segments[1..], values[1..])
  }

  /** Where value `i` begins: after the first i + 1 segments and i values. */
  function ValueStart(segments: seq<string>, values: seq<string>, i: nat): nat
    requires |segments| == |values| + 1 && i < |values|
  {
    TotalLength(segments[..i + 1]) + TotalLength(values[..i])
  }

  /** Where segment `i` begins: after the first i segments and i values. */
  function SegmentStart(segments: seq<string>, values: seq<string>, i: nat): nat
    requires |segments| == |values| + 1 && i < |segments|
  {
    TotalLength(segments[..i]) + TotalLength(values[..i])
  }

  lemma {:induction false} TotalLengthPrefix(xs: seq<string>, k: nat)
    requires 0 < k <= |xs|
    ensures TotalLength(xs[..k]) == |xs[0]| + TotalLength(xs[1..][..k - 1])
  {
    assert xs[..k][1..] == xs[1..][..k - 1];
  }

  /** The rendered text is as long as its segments and values together. */
  lemma {:induction false} RenderLength(segments: seq<string>, values: seq<string>)
    requires |segments| == |values| + 1
    ensures |Render(segments, values)| == TotalLength(segments) + TotalLength(values)
  {
    if values != [] {
      RenderLength(segments[1..], values[1..]);
    } else {
      assert segments[1..] == [];
    }
  }

  /** Each value stands verbatim at its place in the rendered text. */
  lemma {:induction false} RenderPlacesValue(segments: seq<string>, values: seq<string>, i: nat)
    requires |segments| == |values| + 1 && i < |values|
    ensures ValueStart(segments, values, i) + |values[i]| <= |Render(segments, values)|
    ensures Render(segments, values)[ValueStart(segments, values, i)..][..|values[i]|] == values[i]
  {
    var r := Render(segments, values);
    var rest := Render(segments[1..], values[1..]);
    assert r == segments[0] + values[0] + rest;
    TotalLengthPrefix(segments, i + 1);
    if i == 0 {
      assert segments[1..][..0] == [] && values[..0] == [];
      assert ValueStart(segments, values, i) == |segments[0]|;
      assert r[|segments[0]|..] == values[0] + rest;
    } else {
      TotalLengthPrefix(values, i);
      RenderPlacesValue(segments[1..], values[1..], i - 1);
      var at := ValueStart(segments[1..], values[1..], i - 1);
      assert ValueStart(segments, values, i) == |segments[0]| + |values[0]| + at;
      assert r[|segments[0]| + |values[0]|..] == rest;
    }
  }

  /** Each literal segment stands unchanged at its place in the rendered text. */
  lemma {:induction false} RenderPlacesSegment(segments: seq<string>, values: seq<string>, i: nat)
    requires |segments| == |values| + 1 && i < |segments|
    ensures SegmentStart(segments, values, i) + |segments[i]| <= |Render(segments, values)|
    ensures Render(segments, values)[SegmentStart(segments, values, i)..][..|segments[i]|] == segments[i]
  {
    var r := Render(segments, values);
    if i == 0 {
      assert segments[..0] == [] && values[..0] == [];
      if values != [] {
        assert r == segments[0] + (values[0] + Render(segments[1..], values[1..]));
      }
    } else {
      var rest := Render(segments[1..], values[1..]);
      assert r == segments[0] + values[0] + rest;
      TotalLengthPrefix(segments, i);
      TotalLengthPrefix(values, i);
      RenderPlacesSegment(segments[1..], values[1..], i - 1);
      var at := SegmentStart(segments[1..], values[1..], i - 1);
      assert SegmentStart(segments, values, i) == |segments[0]| + |values[0]| + at;
      assert r[|segments[0]| + |values[0]|..] == rest;
    }
  }

  /** The fixed text of the prompt, cut at its fourteen placeholders. */
  const PromptSegments: seq<string> := [
    "You are a PMP Application Experience Generator. Generate a professional, PMI-compliant experience summary for a PMP exam application.\n"
      + "\n"
      + "Project Details:\n"
      + "- Project Title: ",
    "\n- Organization: ",
    "\n- Role: ",
    "\n- Duration: ",
    " to ",
    "\n- Hours Worked: ",
    "\n- Project Description: ",
    "\n- Key Deliverables: ",
    "\n- Challenges Faced: ",
    "\n"
      + "\n"
      + "Process Group Activities:\n"
      + "- Initiating: ",
    "\n- Planning: ",
    "\n- Executing: ",
    "\n- Monitoring & Controlling: ",
    "\n- Closing: ",
    "\n"
      + "\n"
      + "Generate a professional PMP application experience entry that:\n"
      + "1. Focuses on project management responsibilities (not just technical work)\n"
      + "2. Covers all five PMI Process Groups clearly\n"
      + "3. Uses PMI language (stakeholder engagement, risk management, scope baseline, etc.)\n"
      + "4. Emphasizes leadership and decision-making\n"
      + "5. Is written professionally for PMP auditors\n"
      + "\n"
      + "Format the output as follows:\n"
      + "\n"
      + "**Project Summary**:\n"
      + "[3-5 sentence summary of project purpose, role, scope and value delivered]\n"
      + "\n"
      + "**Process Group Responsibilities**:\n"
      + "\n"
      + "**Initiating**:\n"
      + "[2-3 sentences describing initiating activities with PMI terminology]\n"
      + "\n"
      + "**Planning**:\n"
      + "[2-3 sentences describing planning activities with PMI terminology]\n"
      + "\n"
      + "**Executing**:\n"
      + "[2-3 sentences describing executing activities with PMI terminology]\n"
      + "\n"
      + "**Monitoring & Controlling**:\n"
      + "[2-3 sentences describing monitoring & controlling activities with PMI terminology]\n"
      + "\n"
      + "**Closing**:\n"
      + "[2-3 sentences describing closing activities with PMI terminology]\n"
      + "\n"
      + "**Challenges Overcome**:\n"
      + "[2-3 sentences describing how challenges were addressed using project management skills]"]

  /** The record's values in the order the template places them. */
  function PromptValues(r: Record): seq<string> {
    [r.projectTitle, r.organizationName, r.role, r.startDate, r.endDate, r.totalHours,
     r.projectDescription, r.deliverables, r.challenges,
     r.initiating, r.planning, r.executing, r.monitoringControlling, r.closing]
  }

  /** The prompt sent to the generator. */
  function Prompt(r: Record): string {
    Render(PromptSegments, PromptValues(r))
  }

  /** Value i of a rendered template stands verbatim right after segment i
      and right before segment i + 1. */
  lemma RenderNeighbours(segments: seq<string>, values: seq<string>, i: nat)
    requires |segments| == |values| + 1 && i < |values|
    ensures var r, at := Render(segments, values), ValueStart(segments, values, i);
      && at + |values[i]| <= |r|
      && r[at..][..|values[i]|] == values[i]
      && at == SegmentStart(segments, values, i) + |segments[i]|
      && r[at - |segments[i]|..][..|segments[i]|] == segments[i]
      && at + |values[i]| == SegmentStart(segments, values, i + 1)
  {
    RenderPlacesValue(segments, values, i);
    RenderPlacesSegment(segments, values, i);
    assert segments[..i + 1] == segments[..i] + [segments[i]];
    TotalLengthAppend(segments[..i], [segments[i]]);
    assert values[..i + 1] == values[..i] + [values[i]];
    TotalLengthAppend(values[..i], [values[i]]);
  }

  /** Every field value appears verbatim in the prompt, after the literal
      text that labels it and followed by the next literal, in template
      order; no value is escaped, trimmed or reordered. */
  lemma PromptPlacesFields(r: Record, i: nat)
    requires i < 14
    ensures var at := ValueStart(PromptSegments, PromptValues(r), i);
      && at + |PromptValues(r)[i]| <= |Prompt(r)|
      && Prompt(r)[at..][..|PromptValues(r)[i]|] == PromptValues(r)[i]
      && at == SegmentStart(PromptSegments, PromptValues(r), i) + |PromptSegments[i]|
      && Prompt(r)[at - |PromptSegments[i]|..][..|PromptSegments[i]|] == PromptSegments[i]
      && at + |PromptValues(r)[i]| == SegmentStart(PromptSegments, PromptValues(r), i + 1)
  {
    RenderNeighbours(PromptSegments, PromptValues(r), i);
  }

  lemma {:induction false} TotalLengthAppend(a: seq<string>, b: seq<string>)
    ensures TotalLength(a + b) == TotalLength(a) + TotalLength(b)
  {
    if a == [] {
      assert a + b == b;
    } else {
      TotalLengthAppend(a[1..], b);
      assert (a + b)[1..] == a[1..] + b;
    }
  }

  /** A rendered template opens with its first segment and closes with its last. */
  lemma RenderFrame(segments: seq<string>, values: seq<string>)
    requires |segments| == |values| + 1
    ensures Strings.StartsWith(Render(segments, values), segments[0])
    ensures Strings.EndsWith(Render(segments, values), segments[|segments| - 1])
  {
    var n := |segments| - 1;
    RenderPlacesSegment(segments, values, 0);
    RenderPlacesSegment(segments, values, n);
    RenderLength(segments, values);
    assert segments == segments[..n] + [segments[n]];
    TotalLengthAppend(segments[..n], [segments[n]]);
    assert values[..n] == values;
  }

  /** The prompt opens with the generator's role and the first label, and
      closes with the formatting instructions, whatever the record holds. */
  lemma PromptFrame(r: Record)
    ensures Strings.StartsWith(Prompt(r), PromptSegments[0])
    ensures Strings.EndsWith(Prompt(r), PromptSegments[14])
  {
    RenderFrame(PromptSegments, PromptValues(r));
  }

  // ---------------------------------------------------------------------
  // The handler
  // ---------------------------------------------------------------------

  /** What the text generator does with a prompt: return text or throw. */
  datatype Outcome = Generated(text: string) | Threw(message: string)

  /** The response written, and the prompt handed to the generator if the
      handler got that far (`None`: the generator was never invoked). */
  datatype Exchange = Exchange(response: Response, prompt: Option<string>)

  const ValidationError := "Validation error"
  const KeyMissingError := "API key not configured"
  const KeyMissingMessage := "Please set OPENAI_API_KEY in your environment variables"
  const GenerationError := "Failed to generate experience"

  /** The identifying fields of the record beside the generated text. */
  function ResultOf(r: Record, text: string): ResultData {
    ResultData(r.projectTitle, r.organizationName, r.role, r.startDate, r.endDate, r.totalHours, text)
  }

  /** `router.post("/", …)`: parse the body, check the key, render the
      prompt, call the generator once, and answer. `apiKey` is the value
      of OPENAI_API_KEY in the environment, if set. */
  function Handle(body: Json.Value, apiKey: Option<string>, generate: string -> Outcome): Exchange {
    match Parse(body)
    case Err(issues) =>
      Exchange(Response(400, ValidationFailed(ValidationError, issues)), None)
    case Ok(record) =>
      if !Truthy(apiKey) then
        Exchange(Response(500, ErrorMessage(KeyMissingError, KeyMissingMessage)), None)
      else
        var prompt := Prompt(record);
        match generate(prompt)
        case Generated(text) =>
          Exchange(Response(200, Succeeded(true, ResultOf(record, text))), Some(prompt))
        case Threw(message) =>
          Exchange(Response(500, ErrorMessage(GenerationError, message)), Some(prompt))
  }

  /** A body the schema refuses is answered 400 with its issues whatever
      the key and the generator: the key is not looked at and the
      generator is never invoked. */
  lemma RefusedBodyNeverReachesGenerator(body: Json.Value, apiKey: Option<string>, generate: string -> Outcome)
    requires !(body.Object? && forall f :: Admits(ValueOf(body.members, f)))
    ensures Parse(body).Err?
    ensures Handle(body, apiKey, generate)
      == Exchange(Response(400, ValidationFailed(ValidationError, Parse(body).error)), None)
  {
    ParseAcceptsExactly(body);
  }

  /** With an admitted body and no usable key (unset or empty), the answer
      is 500 "API key not configured" and the generator is never invoked. */
  lemma MissingKeyNeverReachesGenerator(body: Json.Value, apiKey: Option<string>, generate: string -> Outcome)
    requires Parse(body).Ok?
    requires apiKey.None? || apiKey.value == ""
    ensures Handle(body, apiKey, generate)
      == Exchange(Response(500, ErrorMessage(KeyMissingError, KeyMissingMessage)), None)
  {
  }

  /** With an admitted body and a key, the generator receives the rendered
      prompt; on success the answer is 200 with `success: true`, the six
      identifying fields exactly as the body sent them, and the generated
      text unchanged. */
  lemma GeneratedResultEchoesInput(body: Json.Value, key: string, generate: string -> Outcome)
    requires Parse(body).Ok? && key != ""
    requires generate(Prompt(Parse(body).value)).Generated?
    ensures var x, m := Handle(body, Some(key), generate), body.members;
      && x.prompt == Some(Prompt(Parse(body).value))
      && x.response.status == 200 && x.response.payload.Succeeded? && x.response.payload.success
      && var d := x.response.payload.data;
      && ValueOf(m, ProjectTitle) == Json.Str(d.projectTitle)
      && ValueOf(m, OrganizationName) == Json.Str(d.organizationName)
      && ValueOf(m, Role) == Json.Str(d.role)
      && ValueOf(m, StartDate) == Json.Str(d.startDate)
      && ValueOf(m, EndDate) == Json.Str(d.endDate)
      && ValueOf(m, TotalHours) == Json.Str(d.totalHours)
      && d.generatedExperience == generate(Prompt(Parse(body).value)).text
  {
    ParsedRecordIsVerbatim(body);
    var r := Parse(body).value;
    assert r.projectTitle == r.Get(ProjectTitle) && r.organizationName == r.Get(OrganizationName);
    assert r.role == r.Get(Role) && r.startDate == r.Get(StartDate);
    assert r.endDate == r.Get(EndDate) && r.totalHours == r.Get(TotalHours);
  }

  /** When the generator throws, the answer is 500 "Failed to generate
      experience" with the thrown message, and no input is echoed. */
  lemma GeneratorFailureEchoesNothing(body: Json.Value, key: string, generate: string -> Outcome)
    requires Parse(body).Ok? && key != ""
    requires generate(Prompt(Parse(body).value)).Threw?
    ensures Handle(body, Some(key), generate)
      == Exchange(Response(500, ErrorMessage(GenerationError, generate(Prompt(Parse(body).value)).message)),
                  Some(Prompt(Parse(body).value)))
  {
  }

  /** The three ways out of the handler, and which of them call the generator. */
  lemma HandleOutcomes(body: Json.Value, apiKey: Option<string>, generate: string -> Outcome)
    ensures var x, ok := Handle(body, apiKey, generate), Parse(body).Ok?;
      && x.response.status in {200, 400, 500}
      && (x.response.status == 400 <==> !ok)
      && (x.prompt.Some? <==> ok && Truthy(apiKey))
      && (x.response.status == 200 <==> x.prompt.Some? && generate(x.prompt.value).Generated?)
      && (x.response.payload.Succeeded? <==> x.response.status == 200)
  {
  }

  /** Keys outside the schema do not change what the handler does. */
  lemma UnknownKeysDoNotMatter(m: map<string, Json.Value>, k: string, v: Json.Value,
                               apiKey: Option<string>, generate: string -> Outcome)
    requires forall f :: Key(f) != k
    ensures Handle(Json.Object(m[k := v]), apiKey, generate) == Handle(Json.Object(m), apiKey, generate)
  {
    UnknownKeysIgnored(m, k, v);
  }
}
