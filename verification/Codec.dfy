/**
 The hash representation of a job: serializeJob and deserializeJob of internal/store/redis.go. The keys are
 the field names of the hash; the values are text.
 */
module Codec {
  import opened Jobs
  import Decimal
  import opened StoreModel

  datatype Field =
    | IdField | TypeField | DueField | AttemptField | MaxAttemptsField | BackoffField | UrlField | MethodField
    | TimeoutField | CreatedField | UpdatedField | StatusField
    | IntervalField | HeadersField | BodyField | LastErrorField | LastCodeField

  type Fields = map<Field, string>

  /** The text encoders a hash is written with: strconv for numbers, encoding/json for headers and bodies. Decoding JSON
      yields None on an error, and otherwise the map, which JSON null leaves nil. */
  datatype TextCodec = TextCodec(
    formatInt: int -> string,
    parseInt: string -> Option<int>,
    encodeHeaders: Headers -> string,
    decodeHeaders: string -> Option<Option<Headers>>,
    encodeBody: Body -> string,
    decodeBody: string -> Option<Option<Body>>)
  {
    ghost predicate JsonFaithful() {
      && (forall h: Headers :: encodeHeaders(h) != "" && decodeHeaders(encodeHeaders(h)) == Some(Some(h)))
      && (forall b: Body :: encodeBody(b) != "" && decodeBody(encodeBody(b)) == Some(Some(b)))
    }

    ghost predicate Faithful() {
      && JsonFaithful()
      && (forall x | Int64(x) :: formatInt(x) != "" && parseInt(formatInt(x)) == Some(x))
      && (forall s :: parseInt(s).Some? ==> Int64(parseInt(s).value))
    }

    /** The same JSON encoders with the decimal text of strconv. */
    function Strconv(): TextCodec {
      this.(formatInt := x => Decimal.FormatInt(x), parseInt := s => Decimal.ParseInt(s))
    }
  }

  /** strconv keeps its side of the bargain: every int64, down to -2^63, is printed and read back. */
  lemma StrconvFaithful(text: TextCodec)
    requires text.JsonFaithful()
    ensures text.Strconv().Faithful()
  {
    forall x | Int64(x)
      ensures text.Strconv().formatInt(x) != "" && text.Strconv().parseInt(text.Strconv().formatInt(x)) == Some(x)
    {
      Decimal.ParseFormat(x);
    }
  }

  /** A value, or the first field whose text is not acceptable. */
  datatype Result<+T> = Ok(value: T) | Invalid(field: Field) {
    predicate IsFailure() { Invalid? }

    function PropagateFailure<U>(): Result<U>
      requires Invalid?
    {
      Invalid(field)
    }

    function Extract(): T
      requires Ok?
    {
      value
    }
  }

  // ----- serialization

  /** The text a job has in a field, if the field is written at all. */
  function Text(text: TextCodec, j: Job, f: Field): Option<string> {
    match f
    case IdField => Some(j.id)
    case TypeField => Some(j.jobType)
    case DueField => Some(text.formatInt(j.dueAtMs))
    case AttemptField => Some(text.formatInt(j.attempt))
    case MaxAttemptsField => Some(text.formatInt(j.maxAttempts))
    case BackoffField => Some(text.formatInt(j.backoffBaseMs))
    case UrlField => Some(j.url)
    case MethodField => Some(j.webMethod)
    case TimeoutField => Some(text.formatInt(j.timeoutMs))
    case CreatedField => Some(text.formatInt(j.createdAtMs))
    case UpdatedField => Some(text.formatInt(j.updatedAtMs))
    case StatusField => Some(j.status)
    case IntervalField => if j.intervalMs > 0 then Some(text.formatInt(j.intervalMs)) else None
    case HeadersField => if j.headers.Some? then Some(text.encodeHeaders(j.headers.value)) else None
    case BodyField => if j.body.Some? then Some(text.encodeBody(j.body.value)) else None
    case LastErrorField => if j.lastError != "" then Some(j.lastError) else None
    case LastCodeField => if j.lastHttpCode != 0 then Some(text.formatInt(j.lastHttpCode)) else None
  }

  function Encoded(text: TextCodec, j: Job): Fields {
    map f: Field | Text(text, j, f).Some? :: Text(text, j, f).value
  }

  /** The order in which the serializer comes to the fields: first those it always writes. */
  function Turn(f: Field): nat {
    match f
    case IntervalField => 1
    case HeadersField => 2
    case BodyField => 3
    case LastErrorField => 4
    case LastCodeField => 5
    case _ => 0
  }

  function EncodedUpTo(text: TextCodec, j: Job, turn: nat): Fields {
    map f: Field | Turn(f) <= turn && Text(text, j, f).Some? :: Text(text, j, f).value
  }

  predicate Has(data: Fields, f: Field, s: string) {
    f in data && data[f] == s
  }

  /** The fields that are always there. */
  predicate Required(text: TextCodec, job: Job, data: Fields) {
    && Has(data, IdField, job.id) && Has(data, TypeField, job.jobType) && Has(data, StatusField, job.status)
    && Has(data, UrlField, job.url) && Has(data, MethodField, job.webMethod)
    && Has(data, DueField, text.formatInt(job.dueAtMs))
    && Has(data, AttemptField, text.formatInt(job.attempt))
    && Has(data, MaxAttemptsField, text.formatInt(job.maxAttempts))
    && Has(data, BackoffField, text.formatInt(job.backoffBaseMs))
    && Has(data, TimeoutField, text.formatInt(job.timeoutMs))
    && Has(data, CreatedField, text.formatInt(job.createdAtMs))
    && Has(data, UpdatedField, text.formatInt(job.updatedAtMs))
  }

  /** The fields that are there only if they say something. */
  predicate Optionals(text: TextCodec, job: Job, data: Fields) {
    && (IntervalField in data <==> job.intervalMs > 0)
    && (IntervalField in data ==> data[IntervalField] == text.formatInt(job.intervalMs))
    && (HeadersField in data <==> job.headers.Some?)
    && (HeadersField in data ==> data[HeadersField] == text.encodeHeaders(job.headers.value))
    && (BodyField in data <==> job.body.Some?)
    && (BodyField in data ==> data[BodyField] == text.encodeBody(job.body.value))
    && (LastErrorField in data <==> job.lastError != "")
    && (LastErrorField in data ==> data[LastErrorField] == job.lastError)
    && (LastCodeField in data <==> job.lastHttpCode != 0)
    && (LastCodeField in data ==> data[LastCodeField] == text.formatInt(job.lastHttpCode))
  }

  lemma RequiredEncoded(text: TextCodec, job: Job)
    ensures Required(text, job, Encoded(text, job))
  {
  }

  lemma OptionalsEncoded(text: TextCodec, job: Job)
    ensures Optionals(text, job, Encoded(text, job))
  {
  }

  lemma FirstTurn(text: TextCodec, job: Job, data: Fields)
    requires Required(text, job, data) && forall f | f in data :: Turn(f) == 0
    ensures data == EncodedUpTo(text, job, 0)
  {
    forall f: Field
      ensures f in data <==> f in EncodedUpTo(text, job, 0)
      ensures f in data ==> data[f] == EncodedUpTo(text, job, 0)[f]
    {
    }
  }

  method RequiredFields(text: TextCodec, job: Job) returns (data: Fields)
    ensures data == EncodedUpTo(text, job, 0)
  {
    data := map[
      IdField := job.id,
      TypeField := job.jobType,
      DueField := text.formatInt(job.dueAtMs),
      AttemptField := text.formatInt(job.attempt),
      MaxAttemptsField := text.formatInt(job.maxAttempts),
      BackoffField := text.formatInt(job.backoffBaseMs),
      UrlField := job.url,
      MethodField := job.webMethod,
      TimeoutField := text.formatInt(job.timeoutMs),
      CreatedField := text.formatInt(job.createdAtMs),
      UpdatedField := text.formatInt(job.updatedAtMs),
      StatusField := job.status];
    FirstTurn(text, job, data);
  }

  /** After the turn of `f`, that field has been dealt with, too. */
  lemma NextTurn(text: TextCodec, j: Job, f: Field, before: Fields, after: Fields)
    requires Turn(f) > 0 && before == EncodedUpTo(text, j, Turn(f) - 1)
    requires after == if Text(text, j, f).Some? then before[f := Text(text, j, f).value] else before
    ensures after == EncodedUpTo(text, j, Turn(f))
  {
    assert forall g: Field :: Turn(g) == Turn(f) ==> g == f;
  }

  /** The interval, the headers and the body, if there are any. */
  method AddShape(text: TextCodec, job: Job, required: Fields) returns (data: Fields)
    requires required == EncodedUpTo(text, job, 0)
    ensures data == EncodedUpTo(text, job, 3)
  {
    data := required;
    if job.intervalMs > 0 {
      data := data[IntervalField := text.formatInt(job.intervalMs)];
    }
    NextTurn(text, job, IntervalField, required, data);
    ghost var shorter := data;
    if job.headers.Some? {
      data := data[HeadersField := text.encodeHeaders(job.headers.value)];
    }
    NextTurn(text, job, HeadersField, shorter, data);
    shorter := data;
    if job.body.Some? {
      data := data[BodyField := text.encodeBody(job.body.value)];
    }
    NextTurn(text, job, BodyField, shorter, data);
  }

  /** Writes twelve fields always, and five only if they are not zero, nil or empty, each with its own text. */
  method SerializeJob(text: TextCodec, job: Job) returns (data: Fields)
    ensures Required(text, job, data) && Optionals(text, job, data)
    ensures data == Encoded(text, job)
  {
    data := RequiredFields(text, job);
    data := AddShape(text, job, data);
    ghost var shorter := data;
    if job.lastError != "" {
      data := data[LastErrorField := job.lastError];
    }
    NextTurn(text, job, LastErrorField, shorter, data);
    shorter := data;
    if job.lastHttpCode != 0 {
      data := data[LastCodeField := text.formatInt(job.lastHttpCode)];
    }
    NextTurn(text, job, LastCodeField, shorter, data);
    AllTurns(text, job);
    RequiredEncoded(text, job);
    OptionalsEncoded(text, job);
  }

  lemma AllTurns(text: TextCodec, j: Job)
    ensures EncodedUpTo(text, j, 5) == Encoded(text, j)
  {
  }

  // ----- deserialization

  /** A missing key reads as the empty string, as in Go. */
  function Get(data: Fields, f: Field): string {
    if f in data then data[f] else ""
  }

  function Number(text: TextCodec, data: Fields, f: Field): Result<int> {
    match text.parseInt(Get(data, f))
    case None => Invalid(f)
    case Some(v) => Ok(v)
  }

  function OptionalNumber(text: TextCodec, data: Fields, f: Field): Result<int> {
    if Get(data, f) == "" then Ok(0) else Number(text, data, f)
  }

  function OptionalHeaders(text: TextCodec, data: Fields): Result<Option<Headers>> {
    if Get(data, HeadersField) == "" then Ok(None)
    else
      match text.decodeHeaders(data[HeadersField])
      case None => Invalid(HeadersField)
      case Some(h) => Ok(h)
  }

  function OptionalBody(text: TextCodec, data: Fields): Result<Option<Body>> {
    if Get(data, BodyField) == "" then Ok(None)
    else
      match text.decodeBody(data[BodyField])
      case None => Invalid(BodyField)
      case Some(b) => Ok(b)
  }

  function Decoded(text: TextCodec, data: Fields): Result<Job> {
    var due :- Number(text, data, DueField);
    var attempt :- Number(text, data, AttemptField);
    var maxAttempts :- Number(text, data, MaxAttemptsField);
    var backoff :- Number(text, data, BackoffField);
    var timeout :- Number(text, data, TimeoutField);
    var created :- Number(text, data, CreatedField);
    var updated :- Number(text, data, UpdatedField);
    var interval :- OptionalNumber(text, data, IntervalField);
    var headers :- OptionalHeaders(text, data);
    var body :- OptionalBody(text, data);
    var code :- OptionalNumber(text, data, LastCodeField);
    Ok(Job(Get(data, IdField), Get(data, TypeField), due, interval, attempt, maxAttempts, backoff, Get(data, UrlField),
           Get(data, MethodField), headers, body, timeout, created, updated, Get(data, LastErrorField), code,
           Get(data, StatusField)))
  }

  /** The text of a field can be read: a number where one is due, and JSON or nothing for headers and body. */
  predicate Readable(text: TextCodec, data: Fields, f: Field) {
    match f
    case DueField => text.parseInt(Get(data, f)).Some?
    case AttemptField => text.parseInt(Get(data, f)).Some?
    case MaxAttemptsField => text.parseInt(Get(data, f)).Some?
    case BackoffField => text.parseInt(Get(data, f)).Some?
    case TimeoutField => text.parseInt(Get(data, f)).Some?
    case CreatedField => text.parseInt(Get(data, f)).Some?
    case UpdatedField => text.parseInt(Get(data, f)).Some?
    case IntervalField => Get(data, f) == "" || text.parseInt(Get(data, f)).Some?
    case LastCodeField => Get(data, f) == "" || text.parseInt(Get(data, f)).Some?
    case HeadersField => Get(data, f) == "" || text.decodeHeaders(Get(data, f)).Some?
    case BodyField => Get(data, f) == "" || text.decodeBody(Get(data, f)).Some?
    case _ => true
  }

  predicate NumbersReadable(text: TextCodec, data: Fields) {
    && Readable(text, data, DueField) && Readable(text, data, AttemptField)
    && Readable(text, data, MaxAttemptsField) && Readable(text, data, BackoffField)
    && Readable(text, data, TimeoutField) && Readable(text, data, CreatedField)
    && Readable(text, data, UpdatedField)
  }

  predicate OptionalsReadable(text: TextCodec, data: Fields) {
    && Readable(text, data, IntervalField) && Readable(text, data, LastCodeField)
    && Readable(text, data, HeadersField) && Readable(text, data, BodyField)
  }

  lemma AllReadable(text: TextCodec, data: Fields)
    ensures NumbersReadable(text, data) && OptionalsReadable(text, data) <==> forall f: Field :: Readable(text, data, f)
  {
  }

  lemma DecodedOk(text: TextCodec, data: Fields)
    ensures Decoded(text, data).Ok? <==> NumbersReadable(text, data) && OptionalsReadable(text, data)
  {
  }

  lemma DecodedInvalid(text: TextCodec, data: Fields)
    requires Decoded(text, data).Invalid?
    ensures !Readable(text, data, Decoded(text, data).field)
  {
  }

  /** A hash is read exactly if each of its fields can be, and otherwise the field reported is one that cannot. */
  lemma DecodedIff(text: TextCodec, data: Fields)
    ensures Decoded(text, data).Ok? <==> forall f: Field :: Readable(text, data, f)
    ensures Decoded(text, data).Invalid? ==> !Readable(text, data, Decoded(text, data).field)
  {
    AllReadable(text, data);
    DecodedOk(text, data);
    if Decoded(text, data).Invalid? { DecodedInvalid(text, data); }
  }

  const ZERO_JOB := Job("", "", 0, 0, 0, 0, 0, "", "", None, None, 0, 0, 0, "", 0, "")

  /** Fills the zero job field by field and stops at the first text it cannot read. */
  method DeserializeJob(text: TextCodec, data: Fields) returns (r: Result<Job>)
    ensures r == Decoded(text, data)
  {
    var job := ZERO_JOB;
    job := job.(id := Get(data, IdField));
    job := job.(jobType := Get(data, TypeField));
    var due :- Number(text, data, DueField);
    job := job.(dueAtMs := due);
    var attempt :- Number(text, data, AttemptField);
    job := job.(attempt := attempt);
    var maxAttempts :- Number(text, data, MaxAttemptsField);
    job := job.(maxAttempts := maxAttempts);
    var backoff :- Number(text, data, BackoffField);
    job := job.(backoffBaseMs := backoff);
    job := job.(url := Get(data, UrlField));
    job := job.(webMethod := Get(data, MethodField));
    var timeout :- Number(text, data, TimeoutField);
    job := job.(timeoutMs := timeout);
    var created :- Number(text, data, CreatedField);
    job := job.(createdAtMs := created);
    var updated :- Number(text, data, UpdatedField);
    job := job.(updatedAtMs := updated);
    job := job.(status := Get(data, StatusField));
    if IntervalField in data && data[IntervalField] != "" {
      var interval :- Number(text, data, IntervalField);
      job := job.(intervalMs := interval);
    }
    if HeadersField in data && data[HeadersField] != "" {
      match text.decodeHeaders(data[HeadersField]) {
        case None => return Invalid(HeadersField);
        case Some(h) => job := job.(headers := h);
      }
    }
    if BodyField in data && data[BodyField] != "" {
      match text.decodeBody(data[BodyField]) {
        case None => return Invalid(BodyField);
        case Some(b) => job := job.(body := b);
      }
    }
    job := job.(lastError := Get(data, LastErrorField));
    if LastCodeField in data && data[LastCodeField] != "" {
      var code :- Number(text, data, LastCodeField);
      job := job.(lastHttpCode := code);
    }
    r := Ok(job);
  }

  // ----- what reading gives back

  /** A number that is always written reads back. */
  lemma NumberReads(text: TextCodec, h: Fields, j: Job, f: Field, v: int)
    requires text.Faithful() && Int64(v) && Text(text, j, f) == Some(text.formatInt(v))
    ensures Number(text, h + Encoded(text, j), f) == Ok(v) && Get(h + Encoded(text, j), f) != ""
  {
    assert (h + Encoded(text, j))[f] == text.formatInt(v);
  }

  /** A field that is not written keeps what it had. */
  lemma OmittedKeeps(text: TextCodec, h: Fields, j: Job, f: Field)
    requires Text(text, j, f) == None
    ensures Get(h + Encoded(text, j), f) == Get(h, f)
  {
    assert f !in Encoded(text, j);
  }

  lemma WrittenReads(text: TextCodec, h: Fields, j: Job, f: Field)
    requires Text(text, j, f).Some?
    ensures Get(h + Encoded(text, j), f) == Text(text, j, f).value
  {
    assert f in Encoded(text, j);
  }

  lemma OptionalNumberReads(text: TextCodec, h: Fields, j: Job, f: Field, v: int, written: bool)
    requires text.Faithful() && Int64(v) && Text(text, j, f) == if written then Some(text.formatInt(v)) else None
    ensures OptionalNumber(text, h + Encoded(text, j), f) == if written then Ok(v) else OptionalNumber(text, h, f)
  {
    if written {
      NumberReads(text, h, j, f, v);
    } else {
      OmittedKeeps(text, h, j, f);
    }
  }

  lemma HeadersRead(text: TextCodec, h: Fields, j: Job)
    requires text.Faithful()
    ensures OptionalHeaders(text, h + Encoded(text, j)) ==
            if j.headers.Some? then Ok(j.headers) else OptionalHeaders(text, h)
  {
    if j.headers.Some? { WrittenReads(text, h, j, HeadersField); } else { OmittedKeeps(text, h, j, HeadersField); }
  }

  lemma BodyReads(text: TextCodec, h: Fields, j: Job)
    requires text.Faithful()
    ensures OptionalBody(text, h + Encoded(text, j)) == if j.body.Some? then Ok(j.body) else OptionalBody(text, h)
  {
    if j.body.Some? { WrittenReads(text, h, j, BodyField); } else { OmittedKeeps(text, h, j, BodyField); }
  }

  lemma OptionalsRead(text: TextCodec, h: Fields, j: Job)
    requires text.Faithful() && Storable(j)
    ensures var d := h + Encoded(text, j);
      && OptionalNumber(text, d, IntervalField) ==
         (if j.intervalMs > 0 then Ok(j.intervalMs) else OptionalNumber(text, h, IntervalField))
      && OptionalNumber(text, d, LastCodeField) ==
         (if j.lastHttpCode != 0 then Ok(j.lastHttpCode) else OptionalNumber(text, h, LastCodeField))
      && OptionalHeaders(text, d) == (if j.headers.Some? then Ok(j.headers) else OptionalHeaders(text, h))
      && OptionalBody(text, d) == (if j.body.Some? then Ok(j.body) else OptionalBody(text, h))
  {
    OptionalNumberReads(text, h, j, IntervalField, j.intervalMs, j.intervalMs > 0);
    OptionalNumberReads(text, h, j, LastCodeField, j.lastHttpCode, j.lastHttpCode != 0);
    HeadersRead(text, h, j);
    BodyReads(text, h, j);
  }

  lemma NumbersRead(text: TextCodec, h: Fields, j: Job)
    requires text.Faithful() && Storable(j)
    ensures var d := h + Encoded(text, j);
      && Number(text, d, DueField) == Ok(j.dueAtMs) && Number(text, d, AttemptField) == Ok(j.attempt)
      && Number(text, d, MaxAttemptsField) == Ok(j.maxAttempts) && Number(text, d, BackoffField) == Ok(j.backoffBaseMs)
      && Number(text, d, TimeoutField) == Ok(j.timeoutMs) && Number(text, d, CreatedField) == Ok(j.createdAtMs)
      && Number(text, d, UpdatedField) == Ok(j.updatedAtMs)
  {
    NumberReads(text, h, j, DueField, j.dueAtMs);
    NumberReads(text, h, j, AttemptField, j.attempt);
    NumberReads(text, h, j, MaxAttemptsField, j.maxAttempts);
    NumberReads(text, h, j, BackoffField, j.backoffBaseMs);
    NumberReads(text, h, j, TimeoutField, j.timeoutMs);
    NumberReads(text, h, j, CreatedField, j.createdAtMs);
    NumberReads(text, h, j, UpdatedField, j.updatedAtMs);
  }

  lemma TextsRead(text: TextCodec, h: Fields, j: Job)
    ensures var d := h + Encoded(text, j);
      && Get(d, IdField) == j.id && Get(d, TypeField) == j.jobType && Get(d, UrlField) == j.url
      && Get(d, MethodField) == j.webMethod && Get(d, StatusField) == j.status
      && Get(d, LastErrorField) == if j.lastError != "" then j.lastError else Get(h, LastErrorField)
  {
    WrittenReads(text, h, j, IdField);
    WrittenReads(text, h, j, TypeField);
    WrittenReads(text, h, j, UrlField);
    WrittenReads(text, h, j, MethodField);
    WrittenReads(text, h, j, StatusField);
    if j.lastError != "" {
      WrittenReads(text, h, j, LastErrorField);
    } else {
      OmittedKeeps(text, h, j, LastErrorField);
    }
  }

  /** HSET over a hash whose optional fields are readable: what the serializer omits comes from the old hash. */
  lemma MergedReads(text: TextCodec, h: Fields, j: Job, interval: int, headers: Option<Headers>, body: Option<Body>,
      code: int)
    requires text.Faithful() && Storable(j)
    requires OptionalNumber(text, h, IntervalField) == Ok(interval)
        && OptionalNumber(text, h, LastCodeField) == Ok(code)
    requires OptionalHeaders(text, h) == Ok(headers) && OptionalBody(text, h) == Ok(body)
    ensures var below := j.(intervalMs := interval, headers := headers, body := body,
                            lastError := Get(h, LastErrorField), lastHttpCode := code);
      Decoded(text, h + Encoded(text, j)) == Ok(Overlay(below, j))
  {
    NumbersRead(text, h, j);
    TextsRead(text, h, j);
    OptionalsRead(text, h, j);
  }

  /** HSET over a readable hash: it reads back as the written job overlaid on the old one. */
  lemma OverlayReads(text: TextCodec, h: Fields, before: Job, j: Job)
    requires text.Faithful() && Storable(j) && Decoded(text, h) == Ok(before)
    ensures Decoded(text, h + Encoded(text, j)) == Ok(Overlay(before, j))
  {
    MergedReads(text, h, j, before.intervalMs, before.headers, before.body, before.lastHttpCode);
  }

  /** HSET on a missing key: the job reads back as it is, nil and empty maps told apart. */
  lemma FreshReads(text: TextCodec, j: Job)
    requires text.Faithful() && Storable(j)
    ensures Decoded(text, Encoded(text, j)) == Ok(j)
  {
    var none: Fields := map[];
    MergedReads(text, none, j, 0, None, None, 0);
    assert none + Encoded(text, j) == Encoded(text, j);
  }

  /** The codec loses nothing exactly on the jobs with a non-negative interval. */
  lemma RoundTrip(text: TextCodec, j: Job)
    requires text.Faithful() && Typed(j)
    ensures Decoded(text, Encoded(text, j)) == Ok(j) <==> j.intervalMs >= 0
  {
    if j.intervalMs >= 0 {
      FreshReads(text, j);
    } else {
      assert map[] + Encoded(text, j) == Encoded(text, j);
      OmittedKeeps(text, map[], j, IntervalField);
    }
  }
}
