/** The e-mail draft route: checks the request, looks the patient up,
    builds a short summary of what is known about them, asks the language
    model for a subject and a body, and falls back to fixed texts where the
    answer is missing or cannot be read. The datastore, the model and
    `JSON.parse` are parameters. */
module GenerateEmail {
  import opened Wrappers
  import opened Text

  /** The posted body; `None` is a missing entry. */
  datatype RequestBody = RequestBody(patientId: Option<string>, description: Option<string>, tone: Option<string>)

  /** The patient lookup: the row's name and contact columns (`None` is
      `null`), or no row with the query error's message. */
  datatype Lookup = Found(firstName: Option<string>, lastName: Option<string>, email: Option<string>,
                          phone: Option<string>)
                  | NotFound(message: Option<string>)

  /** One entry of the parsed answer: falsy (missing, `null`, `""`, `0`,
      `false`), a nonempty string, or another truthy value, on which
      `trim` throws. */
  datatype Field = Falsy | Text(text: string) | OtherTruthy

  /** What `JSON.parse` makes of the model's answer: it throws, it gives
      `null` (reading an entry of which throws), or a value with two
      entries. */
  datatype Parsed = NotJson | JsonNull | JsonValue(subject: Field, body: Field)

  /** What goes into the prompt. */
  datatype Prompt = Prompt(patientSummary: string, description: string, tone: string, greetingName: string)

  datatype Response = Draft(subject: string, body: string) | Failure(status: int, error: string)

  const DefaultTone := "professional and reassuring"
  const NothingKnown := "Basic identity and contact details are not available."
  const DefaultSubject := "Clinic update"
  const DefaultBody := "Dear patient,\n\nThank you for your message."
  const MissingKey := "Missing OPENAI_API_KEY environment variable"
  const Required := "patientId and description are required"
  const PatientNotFound := "Patient not found"
  const Failed := "Failed to generate email"

  // ---------------------------------------------------------------------
  // The patient summary
  // ---------------------------------------------------------------------

  /** The patient's name: the nonempty name parts joined by a space. */
  function FullName(firstName: Option<string>, lastName: Option<string>): (r: string)
    ensures firstName.GetOr("") != "" && lastName.GetOr("") != "" ==> r == firstName.value + " " + lastName.value
    ensures firstName.GetOr("") == "" ==> r == lastName.GetOr("")
    ensures lastName.GetOr("") == "" ==> r == firstName.GetOr("")
  {
    JoinNames(firstName.GetOr(""), lastName.GetOr(""))
  }

  /** The summary lines of the known fields, in the order name, e-mail,
      phone. */
  function SummaryLines(fullName: string, email: Option<string>, phone: Option<string>): seq<string> {
    (if fullName != "" then ["Name: " + fullName] else [])
    + (if email.GetOr("") != "" then ["Email: " + email.value] else [])
    + (if phone.GetOr("") != "" then ["Phone: " + phone.value] else [])
  }

  /** Pushes one line per known field and joins them, or gives the fixed
      sentence when nothing is known. */
  method BuildSummary(fullName: string, email: Option<string>, phone: Option<string>) returns (summary: string)
    ensures var lines := SummaryLines(fullName, email, phone);
            summary == if lines == [] then NothingKnown else Join(lines, "\n")
  {
    var lines: seq<string> := [];
    if fullName != "" {
      lines := lines + ["Name: " + fullName];
    }
    if email.Some? && email.value != "" {
      lines := lines + ["Email: " + email.value];
    }
    if phone.Some? && phone.value != "" {
      lines := lines + ["Phone: " + phone.value];
    }
    assert lines == SummaryLines(fullName, email, phone);
    summary := if |lines| > 0 then Join(lines, "\n") else NothingKnown;
  }

  /** There is one line per known field, in the order name, e-mail, phone:
      the name line first, the e-mail line right after it, the phone line
      last. */
  lemma SummaryLinesPerField(fullName: string, email: Option<string>, phone: Option<string>)
    ensures |SummaryLines(fullName, email, phone)|
            == (if fullName != "" then 1 else 0) + (if email.GetOr("") != "" then 1 else 0)
               + (if phone.GetOr("") != "" then 1 else 0)
    ensures fullName != "" ==> SummaryLines(fullName, email, phone)[0] == "Name: " + fullName
    ensures email.GetOr("") != "" ==> SummaryLines(fullName, email, phone)[if fullName != "" then 1 else 0]
                                       == "Email: " + email.value
    ensures phone.GetOr("") != "" ==> SummaryLines(fullName, email, phone)[|SummaryLines(fullName, email, phone)| - 1]
                                       == "Phone: " + phone.value
  {
  }

  // ---------------------------------------------------------------------
  // Reading the model's answer
  // ---------------------------------------------------------------------

  /** Whether reading the parsed answer throws, which sends the route to
      its fallback on the raw text. */
  predicate ReadingThrows(parsed: Parsed) {
    parsed.NotJson? || parsed.JsonNull? || parsed.subject.OtherTruthy? || parsed.body.OtherTruthy?
  }

  /** A usable entry: a string that is not blank. */
  predicate Usable(f: Field) {
    f.Text? && !IsBlank(f.text)
  }

  /** The subject and the body, starting from the fixed defaults: a usable
      parsed entry replaces its default, trimmed; when reading the answer
      throws, the trimmed raw text becomes the body if it is not blank. A
      subject read before the body throws is kept. */
  method ChooseSubjectAndBody(rawContent: string, parsed: Parsed) returns (subject: string, bodyText: string)
    ensures parsed.JsonValue? && Usable(parsed.subject) ==> subject == Trim(parsed.subject.text)
    ensures !(parsed.JsonValue? && Usable(parsed.subject)) ==> subject == DefaultSubject
    ensures !ReadingThrows(parsed) ==> bodyText == if Usable(parsed.body) then Trim(parsed.body.text) else DefaultBody
    ensures ReadingThrows(parsed) ==> bodyText == if !IsBlank(rawContent) then Trim(rawContent) else DefaultBody
    ensures subject != "" && bodyText != ""
  {
    subject := DefaultSubject;
    bodyText := DefaultBody;
    var threw := false;
    if parsed.NotJson? || parsed.JsonNull? {
      threw := true;
    } else {
      if parsed.subject.OtherTruthy? {
        threw := true;
      } else if parsed.subject.Text? && parsed.subject.text != "" && |Trim(parsed.subject.text)| > 0 {
        subject := Trim(parsed.subject.text);
      }
      if !threw {
        if parsed.body.OtherTruthy? {
          threw := true;
        } else if parsed.body.Text? && parsed.body.text != "" && |Trim(parsed.body.text)| > 0 {
          bodyText := Trim(parsed.body.text);
        }
      }
    }
    if threw && |Trim(rawContent)| > 0 {
      bodyText := Trim(rawContent);
    }
  }

  // ---------------------------------------------------------------------
  // The route
  // ---------------------------------------------------------------------

  /** `POST /api/patients/generate-email`: the response and the prompt it
      sent, if it got that far. `body` is `None` when the request is not
      JSON; `answer` is `None` when the model call threw and otherwise the
      answer's text (`""` when missing), with `parsed` its `JSON.parse`. */
  method Post(keyConfigured: bool, body: Option<RequestBody>, lookup: Lookup, answer: Option<string>, parsed: Parsed)
    returns (response: Response, prompt: Option<Prompt>)
    ensures !keyConfigured ==> response == Failure(500, MissingKey) && prompt == None
    ensures keyConfigured && body.None? ==> response == Failure(500, Failed) && prompt == None
    ensures keyConfigured && body.Some? && !Valid(body.value) ==> response == Failure(400, Required) && prompt == None
    ensures keyConfigured && body.Some? && Valid(body.value) && lookup.NotFound? ==>
              response == Failure(404, lookup.message.GetOr(PatientNotFound)) && prompt == None
    ensures keyConfigured && body.Some? && Valid(body.value) && lookup.Found? ==>
              && prompt.Some? && prompt.value.description == Trim(body.value.description.value)
              && prompt.value.tone == Tone(body.value)
              && prompt.value.greetingName == (if lookup.firstName.GetOr("") != "" then lookup.firstName.value else "patient")
              && var lines := SummaryLines(FullName(lookup.firstName, lookup.lastName), lookup.email, lookup.phone);
                 prompt.value.patientSummary == if lines == [] then NothingKnown else Join(lines, "\n")
    ensures keyConfigured && body.Some? && Valid(body.value) && lookup.Found? && answer.None? ==>
              response == Failure(500, Failed)
    ensures keyConfigured && body.Some? && Valid(body.value) && lookup.Found? && answer.Some? ==>
              && response.Draft? && response.subject != "" && response.body != ""
              && response.subject == (if parsed.JsonValue? && Usable(parsed.subject) then Trim(parsed.subject.text)
                                      else DefaultSubject)
              && (!ReadingThrows(parsed) ==>
                    response.body == if Usable(parsed.body) then Trim(parsed.body.text) else DefaultBody)
              && (ReadingThrows(parsed) ==>
                    response.body == if !IsBlank(answer.value) then Trim(answer.value) else DefaultBody)
  {
    if !keyConfigured {
      return Failure(500, MissingKey), None;
    }
    if body.None? {
      return Failure(500, Failed), None;
    }
    var request := body.value;
    if !Valid(request) {
      return Failure(400, Required), None;
    }
    var description := Trim(request.description.GetOr(""));
    var tone := Tone(request);
    match lookup {
      case NotFound(message) =>
        return Failure(404, message.GetOr(PatientNotFound)), None;
      case Found(firstName, lastName, email, phone) =>
        var fullName := FullName(firstName, lastName);
        var summary := BuildSummary(fullName, email, phone);
        var greeting := if firstName.GetOr("") != "" then firstName.value else "patient";
        prompt := Some(Prompt(summary, description, tone, greeting));
        if answer.None? {
          return Failure(500, Failed), prompt;
        }
        var subject, bodyText := ChooseSubjectAndBody(answer.value, parsed);
        response := Draft(subject, bodyText);
    }
  }

  /** The request names a patient and describes the e-mail, neither
      blank. */
  predicate Valid(b: RequestBody) {
    b.patientId.Some? && !IsBlank(b.patientId.value) && b.description.Some? && !IsBlank(b.description.value)
  }

  /** The trimmed tone, or the default tone when none was given. */
  function Tone(b: RequestBody): (r: string)
    ensures b.tone.None? || b.tone.value == "" ==> r == DefaultTone
    ensures b.tone.Some? && b.tone.value != "" ==> r == Trim(b.tone.value)
  {
    assert !IsSpace(DefaultTone[0]) && !IsSpace(DefaultTone[|DefaultTone| - 1]);
    TrimOfTrimmed(DefaultTone);
    Trim(if b.tone.Some? && b.tone.value != "" then b.tone.value else DefaultTone)
  }
}
