/** Model-name parsing for `load_chat_model` and the classification and
    formatting of tool errors into text for the language model. */
module Utils {
  import opened Wrappers
  import opened Text
  import opened JsonValue

  // ---------------------------------------------------------------------------
  // Model names

  datatype ModelName = ModelName(provider: string, model: string)

  /** `provider/model` is split at its first '/'; a name without '/' is an Azure
      model name. */
  function ParseModelName(name: string): (r: ModelName)
    ensures '/' in name ==> r.provider + "/" + r.model == name && '/' !in r.provider
    ensures '/' !in name ==> r == ModelName("azure", name)
  {
    match IndexOf(name, '/')
    case Some(k) =>
      assert name[..k] + "/" + name[k + 1..] == name;
      ModelName(name[..k], name[k + 1..])
    case None => ModelName("azure", name)
  }

  /** The Azure client is built when the lower-cased provider is "azure" or
      "azure_openai". */
  predicate UsesAzure(provider: string): (b: bool)
    ensures provider == "azure" || provider == "azure_openai" ==> b
    ensures b ==> (|provider| == 5 || |provider| == 12) && (provider[0] == 'a' || provider[0] == 'A')
  {
    var lowered := Lower(provider);
    assert |provider| > 0 ==> lowered[0] == LowerChar(provider[0]);
    lowered == "azure" || lowered == "azure_openai"
  }

  /** A bare model name is served by Azure. */
  lemma BareNameUsesAzure(name: string)
    requires '/' !in name
    ensures UsesAzure(ParseModelName(name).provider)
    ensures ParseModelName(name).model == name
  {
    assert Lower("azure") == "azure";
  }

  /** Only the text before the first '/' is the provider; later slashes belong
      to the model name. */
  lemma LaterSlashesStayInModel()
    ensures ParseModelName("AZURE_OpenAI/gpt-4o/mini") == ModelName("AZURE_OpenAI", "gpt-4o/mini")
  {
    var name := "AZURE_OpenAI/gpt-4o/mini";
    assert name[..12] == "AZURE_OpenAI" && name[13..] == "gpt-4o/mini";
    ProviderIsFirstSegment(name, 12);
  }

  /** The provider test ignores case. */
  lemma ProviderTestIgnoresCase()
    ensures UsesAzure("AZURE_OpenAI") && UsesAzure("Azure")
  {
    var a := Lower("AZURE_OpenAI");
    forall i | 0 <= i < 12
      ensures a[i] == "azure_openai"[i]
    {
    }
    var b := Lower("Azure");
    forall i | 0 <= i < 5
      ensures b[i] == "azure"[i]
    {
    }
  }

  /** The agent nodes ask for "openai/gpt-4o-mini", which does not take the
      Azure branch. */
  lemma AgentModelIsNotAzure()
    ensures ParseModelName("openai/gpt-4o-mini") == ModelName("openai", "gpt-4o-mini")
    ensures !UsesAzure("openai")
  {
    var name := "openai/gpt-4o-mini";
    assert name[..6] == "openai" && name[7..] == "gpt-4o-mini";
    ProviderIsFirstSegment(name, 6);
    assert |Lower("openai")| == 6;
  }

  /** When position `k` holds the first '/', the provider is `name[..k]` and
      the model is the rest after it. */
  lemma ProviderIsFirstSegment(name: string, k: nat)
    requires k < |name| && name[k] == '/' && '/' !in name[..k]
    ensures ParseModelName(name) == ModelName(name[..k], name[k + 1..])
  {
    assert forall j :: 0 <= j < k ==> name[..k][j] == name[j];
    assert IndexOf(name, '/') == Some(k);
  }

  // ---------------------------------------------------------------------------
  // HTTP errors

  /** The status codes that have a fixed description. */
  predicate KnownStatus(code: int) {
    code == 400 || code == 401 || code == 403 || code == 404 || code == 429 || code == 500
  }

  /** The first letter of a description tells the known codes apart from each
      other and from the rest, which all start with 'H'. */
  function Initial(code: int): char {
    if code == 400 then 'B'
    else if code == 401 then 'U'
    else if code == 403 then 'F'
    else if code == 404 then 'N'
    else if code == 429 then 'R'
    else if code == 500 then 'I'
    else 'H'
  }

  /** The `error_messages` table, and "HTTP {code} Error" for any other code. */
  function HttpBaseMessage(code: int): (r: string)
    ensures |r| > 0 && r[0] == Initial(code)
    ensures StartsWith(r, "HTTP ") <==> !KnownStatus(code)
  {
    var r :=
      if code == 400 then "Bad Request" + " - The request was invalid or malformed"
      else if code == 401 then "Unauthorized" + " - Authentication failed or token is invalid"
      else if code == 403 then "Forbidden" + " - Access denied to the requested resource"
      else if code == 404 then "Not Found" + " - The requested resource does not exist"
      else if code == 429 then "Rate Limited" + " - Too many requests, please wait before retrying"
      else if code == 500 then "Internal Server Error" + " - Something went wrong on the server"
      else "HTTP " + IntToDecimal(code) + " Error";
    assert !KnownStatus(code) ==> r[..5] == "HTTP ";
    r
  }

  /** Every status code has its own description. */
  lemma HttpBaseMessageInjective(a: int, b: int)
    requires HttpBaseMessage(a) == HttpBaseMessage(b)
    ensures a == b
  {
    if !KnownStatus(a) {
      var m := HttpBaseMessage(a);
      assert m == "HTTP " + IntToDecimal(a) + " Error";
      assert m == "HTTP " + IntToDecimal(b) + " Error";
      assert IntToDecimal(a) == m[5..|m| - 6] == IntToDecimal(b);
      IntToDecimalInjective(a, b);
    }
  }

  /** How much of the raw content is kept: more when it carries a request id. */
  function DetailLimit(content: string): nat {
    if Contains(content, "request_id") then 200 else 150
  }

  /** The base description, a separator ('.' when the content has a request id,
      ':' otherwise), a prefix of the content of at most `DetailLimit` characters,
      and "...". */
  function FormatHttpError(content: string, code: int): (r: string)
    ensures StartsWith(r, HttpBaseMessage(code)) && EndsWith(r, "...")
    ensures |r| == |HttpBaseMessage(code)| + 2 + Min(|content|, DetailLimit(content)) + 3
    ensures r[|HttpBaseMessage(code)|..|HttpBaseMessage(code)| + 2] ==
      (if Contains(content, "request_id") then ". " else ": ")
    ensures StartsWith(content, r[|HttpBaseMessage(code)| + 2..|r| - 3])
  {
    var base := HttpBaseMessage(code);
    var sep := if Contains(content, "request_id") then ". " else ": ";
    var detail := Take(content, DetailLimit(content));
    Framed(base, sep, detail);
    base + sep + detail + "..."
  }

  /** The parts of `head + sep + middle + "..."` sit where they were put. */
  lemma Framed(head: string, sep: string, middle: string)
    ensures var r := head + sep + middle + "...";
      && StartsWith(r, head) && EndsWith(r, "...")
      && |r| == |head| + |sep| + |middle| + 3
      && r[|head|..|head| + |sep|] == sep
      && r[|head| + |sep|..|r| - 3] == middle
  {
    var r := head + sep + middle + "...";
    assert r[..|head|] == head;
    assert r[|head|..|head| + |sep|] == sep;
    assert r[|head| + |sep|..|r| - 3] == middle;
    assert r[|r| - 3..] == "...";
  }

  /** The same content reported under two status codes gives two texts. */
  lemma FormatHttpErrorInjective(content: string, a: int, b: int)
    requires FormatHttpError(content, a) == FormatHttpError(content, b)
    ensures a == b
  {
    var r := FormatHttpError(content, a);
    assert |HttpBaseMessage(a)| == |HttpBaseMessage(b)|;
    assert HttpBaseMessage(a) == r[..|HttpBaseMessage(a)|] == HttpBaseMessage(b);
    HttpBaseMessageInjective(a, b);
  }

  // ---------------------------------------------------------------------------
  // Structured (JSON) errors

  const NotionPrefix := "Notion Block Validation Error ("
  const NotionExplanation :=
    "The block content structure is incorrect. "
    + "Each block must have exactly one content type defined (paragraph, heading, list, etc.). "
    + "Original error: "

  function NotionText(status: string, excerpt: string): string {
    NotionPrefix + status + "): " + NotionExplanation + excerpt + "..."
  }

  lemma NotionTextShape(status: string, excerpt: string)
    ensures StartsWith(NotionText(status, excerpt), NotionPrefix + status + "): ")
    ensures EndsWith(NotionText(status, excerpt), "...")
  {
    var head := NotionPrefix + status + "): ";
    var r := NotionText(status, excerpt);
    assert r == head + (NotionExplanation + excerpt + "...");
    assert r[..|head|] == head;
    assert r[|r| - 3..] == "...";
  }

  function ValidationText(status: string, message: string): string {
    "Validation Error (" + status + "): " + message
  }

  const NotionMarker := "body.children[0]"

  /** `"body.children[0]" in message` finds the marker: a substring of a string,
      an element of a list, a key of a dict. */
  predicate MentionsNotionBlock(message: Json) {
    match message
    case JStr(m) => Contains(m, NotionMarker)
    case JArr(items) => JStr(NotionMarker) in items
    case JObj(fields) => NotionMarker in fields
    case _ => false
  }

  /** The formatter raises: `in` on a number, a boolean or None, or `message[:200]`
      on a dict that has the marker as a key. */
  predicate ValidationRaises(message: Json) {
    message.JNull? || message.JBool? || message.JNum? || (message.JObj? && NotionMarker in message.fields)
  }

  /** `format_validation_message(message, status)` for any parsed JSON `message`. */
  function FormatValidationMessage(message: Json, status: Json, repr: Json -> string): (r: Result<string>)
    ensures r.Err? <==> ValidationRaises(message)
    ensures r.Ok? && MentionsNotionBlock(message) ==>
      StartsWith(r.value, NotionPrefix + PyStr(status, repr) + "): ") && EndsWith(r.value, "...")
    ensures message.JStr? && MentionsNotionBlock(message) ==>
      r == Ok(NotionText(PyStr(status, repr), Take(message.s, 200)))
    ensures r.Ok? && !MentionsNotionBlock(message) ==>
      r.value == ValidationText(PyStr(status, repr), PyStr(message, repr))
  {
    var st := PyStr(status, repr);
    match message
    case JStr(m) =>
      if Contains(m, NotionMarker) then
        var excerpt := Take(m, 200);
        NotionTextShape(st, excerpt);
        Ok(NotionText(st, excerpt))
      else Ok(ValidationText(st, m))
    case JArr(items) =>
      if JStr(NotionMarker) in items then
        var excerpt := repr(JArr(items[..Min(|items|, 200)]));
        NotionTextShape(st, excerpt);
        Ok(NotionText(st, excerpt))
      else Ok(ValidationText(st, repr(message)))
    case JObj(fields) =>
      if NotionMarker in fields then Err("unhashable type: 'slice'")
      else Ok(ValidationText(st, repr(message)))
    case _ => Err("argument of type is not iterable")
  }

  /** `error_data.get(key, default)`. */
  function Get(data: map<string, Json>, key: string, default: Json): Json {
    if key in data then data[key] else default
  }

  function StatusOf(data: map<string, Json>): Json {
    Get(data, "status", JStr("unknown"))
  }

  /** The message, or `str(error_data)` when there is none. */
  function MessageOf(data: map<string, Json>, repr: Json -> string): Json {
    Get(data, "message", JStr(repr(JObj(data))))
  }

  predicate IsValidationCode(data: map<string, Json>) {
    Get(data, "code", JStr("unknown_error")) == JStr("validation_error")
  }

  predicate IsErrorObject(data: map<string, Json>) {
    "object" in data && data["object"] == JStr("error")
  }

  /** `format_structured_error`: validation errors go to the validation formatter,
      error objects read "API Error (status): message", anything else
      "Error (status): message"; the status defaults to "unknown". */
  function FormatStructuredError(data: map<string, Json>, repr: Json -> string): (r: Result<string>)
    ensures r.Err? ==> IsValidationCode(data) && ValidationRaises(MessageOf(data, repr))
    ensures IsValidationCode(data) ==> r == FormatValidationMessage(MessageOf(data, repr), StatusOf(data), repr)
    ensures !IsValidationCode(data) && IsErrorObject(data) ==>
      r == Ok("API Error (" + PyStr(StatusOf(data), repr) + "): " + PyStr(MessageOf(data, repr), repr))
    ensures !IsValidationCode(data) && !IsErrorObject(data) ==>
      r == Ok("Error (" + PyStr(StatusOf(data), repr) + "): " + PyStr(MessageOf(data, repr), repr))
    ensures "status" !in data && !IsValidationCode(data) ==>
      StartsWith(r.value, if IsErrorObject(data) then "API Error (unknown): " else "Error (unknown): ")
  {
    var status := StatusOf(data);
    var message := MessageOf(data, repr);
    if IsValidationCode(data) then FormatValidationMessage(message, status, repr)
    else if IsErrorObject(data) then Ok("API Error (" + PyStr(status, repr) + "): " + PyStr(message, repr))
    else Ok("Error (" + PyStr(status, repr) + "): " + PyStr(message, repr))
  }

  // ---------------------------------------------------------------------------
  // Classification

  /** An exception caught around a tool run: whether its class is a
      `ToolException`, and its `str()`. */
  datatype ToolError = ToolError(isToolException: bool, content: string)

  /** The kinds of report `extract_error_details` produces. */
  datatype ErrorCategory =
    | Unexpected
    | FormattingFailed
    | NotionBlock
    | StructuredValidation
    | ApiError
    | OtherStructured
    | ValidationMention
    | BadRequest
    | Unauthorized
    | NotFound
    | Generic

  /** The position of each kind in the chain `CategoryOf` tests. */
  function Rank(k: ErrorCategory): nat {
    match k
    case Unexpected => 0
    case FormattingFailed => 1
    case NotionBlock => 2
    case StructuredValidation => 3
    case ApiError => 4
    case OtherStructured => 5
    case ValidationMention => 6
    case BadRequest => 7
    case Unauthorized => 8
    case NotFound => 9
    case Generic => 10
  }

  /** The decision chain, in priority order. `parsed` is what `json.loads` gives
      for the content, `None` when it raises. */
  function Category(e: ToolError, parsed: Option<Json>, repr: Json -> string): (k: ErrorCategory)
    ensures k == Unexpected <==> !e.isToolException
    ensures 1 <= Rank(k) <= 5 <==> e.isToolException && parsed.Some? && parsed.value.JObj?
    ensures 6 <= Rank(k) <==> e.isToolException && !(parsed.Some? && parsed.value.JObj?)
  {
    if !e.isToolException then Unexpected
    else if parsed.Some? && parsed.value.JObj? then StructuredCategory(parsed.value.fields, repr)
    else TextCategory(e.content)
  }

  /** The kind of report for content that parses to a JSON object. */
  function StructuredCategory(data: map<string, Json>, repr: Json -> string): (k: ErrorCategory)
    ensures 1 <= Rank(k) <= 5
    ensures k == FormattingFailed <==> IsValidationCode(data) && ValidationRaises(MessageOf(data, repr))
    ensures k == ApiError <==> !IsValidationCode(data) && IsErrorObject(data)
    ensures k == OtherStructured <==> !IsValidationCode(data) && !IsErrorObject(data)
  {
    if IsValidationCode(data) then
      var message := MessageOf(data, repr);
      if ValidationRaises(message) then FormattingFailed
      else if MentionsNotionBlock(message) then NotionBlock
      else StructuredValidation
    else if IsErrorObject(data) then ApiError
    else OtherStructured
  }

  /** The kind of report for content that is not a JSON object, by the
      patterns it contains. */
  function TextCategory(c: string): (k: ErrorCategory)
    ensures 6 <= Rank(k)
    ensures k == ValidationMention <==> Contains(Lower(c), "validation_error")
    ensures k == BadRequest <==>
      !Contains(Lower(c), "validation_error") && Contains(Lower(c), "400 bad request")
    ensures k == Unauthorized <==>
      !Contains(Lower(c), "validation_error") && !Contains(Lower(c), "400 bad request")
      && Contains(c, "401")
    ensures k == NotFound <==>
      !Contains(Lower(c), "validation_error") && !Contains(Lower(c), "400 bad request")
      && !Contains(c, "401") && Contains(c, "404")
    ensures k == Generic <==>
      !Contains(Lower(c), "validation_error") && !Contains(Lower(c), "400 bad request")
      && !Contains(c, "401") && !Contains(c, "404")
  {
    if Contains(Lower(c), "validation_error") then ValidationMention
    else if Contains(Lower(c), "400 bad request") then BadRequest
    else if Contains(c, "401") then Unauthorized
    else if Contains(c, "404") then NotFound
    else Generic
  }

  /** The report for content that parses to a JSON object: the structured
      formatter's text, or the fallback when that formatter raises. */
  function StructuredReport(c: string, data: map<string, Json>, repr: Json -> string): (r: string)
    ensures StructuredCategory(data, repr) == FormattingFailed ==> r == "Tool execution failed: " + c
    ensures StructuredCategory(data, repr) != FormattingFailed ==> Ok(r) == FormatStructuredError(data, repr)
  {
    match FormatStructuredError(data, repr)
    case Ok(text) => text
    case Err(_) => "Tool execution failed: " + c
  }

  /** The report for any other content. */
  function TextReport(c: string): (r: string)
    ensures TextCategory(c) == ValidationMention ==> r == "Validation Error: " + Take(c, 300) + "..."
    ensures TextCategory(c) == BadRequest ==> r == FormatHttpError(c, 400)
    ensures TextCategory(c) == Unauthorized ==> r == FormatHttpError(c, 401)
    ensures TextCategory(c) == NotFound ==> r == FormatHttpError(c, 404)
    ensures TextCategory(c) == Generic ==> r == "Tool execution error: " + c
  {
    if Contains(Lower(c), "validation_error") then "Validation Error: " + Take(c, 300) + "..."
    else if Contains(Lower(c), "400 bad request") then FormatHttpError(c, 400)
    else if Contains(c, "401") then FormatHttpError(c, 401)
    else if Contains(c, "404") then FormatHttpError(c, 404)
    else "Tool execution error: " + c
  }

  /** `extract_error_details(exception)`. */
  function ExtractErrorDetails(e: ToolError, parsed: Option<Json>, repr: Json -> string): (r: string)
    ensures Category(e, parsed, repr) == Unexpected ==>
      r == "Unexpected error during tool execution: " + e.content
    ensures Category(e, parsed, repr) == FormattingFailed ==>
      r == "Tool execution failed: " + e.content
    ensures parsed.Some? && parsed.value.JObj? && e.isToolException && Category(e, parsed, repr) != FormattingFailed ==>
      Ok(r) == FormatStructuredError(parsed.value.fields, repr)
  {
    if !e.isToolException then "Unexpected error during tool execution: " + e.content
    else if parsed.Some? && parsed.value.JObj? then StructuredReport(e.content, parsed.value.fields, repr)
    else TextReport(e.content)
  }

  /** A pattern kind is only ever given to content that is not a JSON object. */
  lemma PatternKindIsText(e: ToolError, parsed: Option<Json>, repr: Json -> string)
    requires Rank(Category(e, parsed, repr)) >= 6
    ensures e.isToolException && !(parsed.Some? && parsed.value.JObj?)
    ensures ExtractErrorDetails(e, parsed, repr) == TextReport(e.content)
    ensures Category(e, parsed, repr) == TextCategory(e.content)
  {
  }

  /** The reports for content that is not a JSON object, by the pattern found. */
  lemma PatternReports(e: ToolError, parsed: Option<Json>, repr: Json -> string)
    ensures var r := ExtractErrorDetails(e, parsed, repr);
      && (Category(e, parsed, repr) == ValidationMention ==>
            r == "Validation Error: " + Take(e.content, 300) + "...")
      && (Category(e, parsed, repr) == BadRequest ==> r == FormatHttpError(e.content, 400))
      && (Category(e, parsed, repr) == Unauthorized ==> r == FormatHttpError(e.content, 401))
      && (Category(e, parsed, repr) == NotFound ==> r == FormatHttpError(e.content, 404))
      && (Category(e, parsed, repr) == Generic ==> r == "Tool execution error: " + e.content)
  {
    if Rank(Category(e, parsed, repr)) >= 6 {
      PatternKindIsText(e, parsed, repr);
    }
  }

  /** The leading text of each kind of report. */
  function Lead(k: ErrorCategory): string {
    match k
    case Unexpected => "Unexpected error during tool execution: "
    case FormattingFailed => "Tool execution failed: "
    case NotionBlock => NotionPrefix
    case StructuredValidation => "Validation Error ("
    case ApiError => "API Error ("
    case OtherStructured => "Error ("
    case ValidationMention => "Validation Error: "
    case BadRequest => HttpBaseMessage(400)
    case Unauthorized => HttpBaseMessage(401)
    case NotFound => HttpBaseMessage(404)
    case Generic => "Tool execution error: "
  }

  /** The kinds in the order `extract_error_details` tests them. */
  const Order: seq<ErrorCategory> := [Unexpected, FormattingFailed, NotionBlock, StructuredValidation,
    ApiError, OtherStructured, ValidationMention, BadRequest, Unauthorized, NotFound, Generic]

  /** The first kind from position `i` of `Order` on whose leading text starts `r`. */
  function FirstLead(r: string, i: nat): Option<ErrorCategory>
    decreases |Order| - i
  {
    if i >= |Order| then None
    else if StartsWith(r, Lead(Order[i])) then Some(Order[i])
    else FirstLead(r, i + 1)
  }

  /** Reads the category back from the leading text of a report. */
  function CategoryOf(r: string): Option<ErrorCategory> {
    FirstLead(r, 0)
  }

  /** Two prefixes that differ at position `i` cannot both start `s`. */
  lemma NotBoth(s: string, p: string, q: string, i: nat)
    requires StartsWith(s, p) && i < |p| && i < |q| && p[i] != q[i]
    ensures !StartsWith(s, q)
  {
    assert s[i] == p[i];
  }

  lemma StartsWithConcat(s: string, p: string, rest: string)
    requires StartsWith(s, p + rest)
    ensures StartsWith(s, p)
  {
    assert (p + rest)[..|p|] == p;
  }

  /** The first character of each leading text. */
  function LeadInitial(k: ErrorCategory): char {
    match k
    case Unexpected => 'U'
    case FormattingFailed => 'T'
    case NotionBlock => 'N'
    case StructuredValidation => 'V'
    case ApiError => 'A'
    case OtherStructured => 'E'
    case ValidationMention => 'V'
    case BadRequest => 'B'
    case Unauthorized => 'U'
    case NotFound => 'N'
    case Generic => 'T'
  }

  lemma LeadStartsWithInitial(k: ErrorCategory)
    ensures |Lead(k)| > 0 && Lead(k)[0] == LeadInitial(k)
  {
    match k
    case BadRequest => assert HttpBaseMessage(400)[0] == 'B';
    case Unauthorized => assert HttpBaseMessage(401)[0] == 'U';
    case NotFound => assert HttpBaseMessage(404)[0] == 'N';
    case _ =>
  }

  // The four pairs of kinds whose leading texts share their first character.

  lemma UnauthorizedIsNotUnexpected(r: string)
    requires StartsWith(r, Lead(Unauthorized))
    ensures !StartsWith(r, Lead(Unexpected))
  {
    NotBoth(r, Lead(Unauthorized), Lead(Unexpected), 2);
  }

  lemma NotFoundIsNotNotion(r: string)
    requires StartsWith(r, Lead(NotFound))
    ensures !StartsWith(r, Lead(NotionBlock))
  {
    NotBoth(r, Lead(NotFound), Lead(NotionBlock), 3);
  }

  lemma MentionIsNotStructuredValidation(r: string)
    requires StartsWith(r, Lead(ValidationMention))
    ensures !StartsWith(r, Lead(StructuredValidation))
  {
    NotBoth(r, Lead(ValidationMention), Lead(StructuredValidation), 17);
  }

  lemma GenericIsNotFormattingFailure(r: string)
    requires StartsWith(r, Lead(Generic))
    ensures !StartsWith(r, Lead(FormattingFailed))
  {
    NotBoth(r, Lead(Generic), Lead(FormattingFailed), 15);
  }

  /** A report with the leading text of one kind does not have the leading
      text of any kind tested before it. */
  lemma EarlierLeadsExcluded(r: string, k: ErrorCategory, other: ErrorCategory)
    requires StartsWith(r, Lead(k)) && Rank(other) < Rank(k)
    ensures !StartsWith(r, Lead(other))
  {
    LeadStartsWithInitial(k);
    LeadStartsWithInitial(other);
    if LeadInitial(other) != LeadInitial(k) {
      NotBoth(r, Lead(k), Lead(other), 0);
    } else if k == Unauthorized {
      UnauthorizedIsNotUnexpected(r);
    } else if k == NotFound {
      NotFoundIsNotNotion(r);
    } else if k == ValidationMention {
      MentionIsNotStructuredValidation(r);
    } else {
      GenericIsNotFormattingFailure(r);
    }
  }

  /** Each kind sits in `Order` at its rank. */
  lemma OrderFollowsRank(k: ErrorCategory)
    ensures Rank(k) < |Order| && Order[Rank(k)] == k
  {
  }

  /** Scanning from position `i`, no earlier than `k`'s rank, finds `k`. */
  lemma {:induction false} FirstLeadFinds(r: string, k: ErrorCategory, i: nat)
    requires StartsWith(r, Lead(k)) && i <= Rank(k)
    ensures FirstLead(r, i) == Some(k)
    decreases Rank(k) - i
  {
    OrderFollowsRank(k);
    if i < Rank(k) {
      OrderFollowsRank(Order[i]);
      EarlierLeadsExcluded(r, k, Order[i]);
      FirstLeadFinds(r, k, i + 1);
    }
  }

  /** A report that starts with the leading text of a kind is read back as
      that kind. */
  lemma LeadDecides(r: string, k: ErrorCategory)
    requires StartsWith(r, Lead(k))
    ensures CategoryOf(r) == Some(k)
  {
    FirstLeadFinds(r, k, 0);
  }

  /** The report of each structured kind starts with that kind's leading text. */
  lemma FailedReportLead(c: string, data: map<string, Json>, repr: Json -> string)
    requires StructuredCategory(data, repr) == FormattingFailed
    ensures StartsWith(StructuredReport(c, data, repr), Lead(FormattingFailed))
  {
  }

  lemma NotionReportLead(c: string, data: map<string, Json>, repr: Json -> string)
    requires StructuredCategory(data, repr) == NotionBlock
    ensures StartsWith(StructuredReport(c, data, repr), Lead(NotionBlock))
  {
    var r := StructuredReport(c, data, repr);
    var st := PyStr(StatusOf(data), repr);
    assert StartsWith(r, NotionPrefix + st + "): ");
    assert NotionPrefix + st + "): " == NotionPrefix + (st + "): ");
    StartsWithConcat(r, NotionPrefix, st + "): ");
  }

  lemma ValidationReportLead(c: string, data: map<string, Json>, repr: Json -> string)
    requires StructuredCategory(data, repr) == StructuredValidation
    ensures StartsWith(StructuredReport(c, data, repr), Lead(StructuredValidation))
  {
  }

  lemma ApiReportLead(c: string, data: map<string, Json>, repr: Json -> string)
    requires StructuredCategory(data, repr) == ApiError
    ensures StartsWith(StructuredReport(c, data, repr), Lead(ApiError))
  {
  }

  lemma OtherReportLead(c: string, data: map<string, Json>, repr: Json -> string)
    requires StructuredCategory(data, repr) == OtherStructured
    ensures StartsWith(StructuredReport(c, data, repr), Lead(OtherStructured))
  {
  }

  lemma StructuredReportStartsWithLead(c: string, data: map<string, Json>, repr: Json -> string)
    ensures StartsWith(StructuredReport(c, data, repr), Lead(StructuredCategory(data, repr)))
  {
    var k := StructuredCategory(data, repr);
    if k == FormattingFailed {
      FailedReportLead(c, data, repr);
    } else if k == NotionBlock {
      NotionReportLead(c, data, repr);
    } else if k == StructuredValidation {
      ValidationReportLead(c, data, repr);
    } else if k == ApiError {
      ApiReportLead(c, data, repr);
    } else {
      OtherReportLead(c, data, repr);
    }
  }

  lemma TextReportStartsWithLead(c: string)
    ensures StartsWith(TextReport(c), Lead(TextCategory(c)))
  {
  }

  /** Every report starts with the leading text of its category. */
  lemma ReportStartsWithLead(e: ToolError, parsed: Option<Json>, repr: Json -> string)
    ensures StartsWith(ExtractErrorDetails(e, parsed, repr), Lead(Category(e, parsed, repr)))
  {
    if e.isToolException {
      if parsed.Some? && parsed.value.JObj? {
        StructuredReportStartsWithLead(e.content, parsed.value.fields, repr);
      } else {
        TextReportStartsWithLead(e.content);
      }
    }
  }

  /** The report's leading text identifies the category that produced it, so
      the kinds of failure stay distinguishable to the reader of the report. */
  lemma ReportNamesItsCategory(e: ToolError, parsed: Option<Json>, repr: Json -> string)
    ensures CategoryOf(ExtractErrorDetails(e, parsed, repr)) == Some(Category(e, parsed, repr))
  {
    ReportStartsWithLead(e, parsed, repr);
    LeadDecides(ExtractErrorDetails(e, parsed, repr), Category(e, parsed, repr));
  }
}
