/** The SC-06 questionnaire: schemas, the condition language, the answers a schema keeps, and what the
    browser shows. Text handling that the host language supplies comes in as a `Host`. */
module Sc06Rules {
  import opened Options
  import opened Texts

  // ----- Values and schemas -----

  datatype Value = Null | Bool(flag: bool) | Num(n: int) | Str(text: string) | List(items: seq<Value>)

  type Answers = map<string, Value>

  datatype QuestionType = Text | Textarea | Choice | Boolean | Date | Email

  datatype Condition =
    | Composite(every: bool, children: seq<Condition>)
    | Compare(negated: bool, field: string, value: Value)
    | Member(field: string, values: seq<Value>)
    | Unsupported

  datatype Question = Question(
    id: string,
    kind: QuestionType,
    required: bool,
    options: Option<seq<string>>,
    minLength: Option<int>,
    maxLength: Option<int>,
    visibleWhen: Option<Condition>)

  datatype Section = Section(id: string, visibleWhen: Option<Condition>, questions: seq<Question>)

  type Schema = seq<Section>

  /** What the host language decides about text. */
  datatype Host = Host(
    isSpace: char -> bool,
    lower: string -> string,
    isDate: string -> bool,
    isEmail: string -> bool,
    isPartnerDeclared: (string, string) -> bool)

  const MAX_CONDITION_DEPTH: nat := 10

  // ----- Coercing one answer -----

  const BOOLEAN_TRUE: set<string> := {"1", "true", "on", "yes", "sim"}
  const BOOLEAN_FALSE: set<string> := {"0", "false", "off", "no", "nao", "não"}

  predicate LengthAllowed(q: Question, s: string) {
    && (q.minLength.Some? ==> q.minLength.value <= |s|)
    && (q.maxLength.Some? ==> |s| <= q.maxLength.value)
  }

  /** None is a validation error. */
  function Coerce(h: Host, q: Question, raw: Value): Option<Value> {
    if q.kind == Boolean then
      match raw
      case Bool(_) => Some(raw)
      case Num(n) => if n == 0 || n == 1 then Some(Bool(n == 1)) else None
      case Str(s) =>
        var normalized := h.lower(Strip(h.isSpace, s));
        if normalized in BOOLEAN_TRUE then Some(Bool(true))
        else if normalized in BOOLEAN_FALSE then Some(Bool(false))
        else None
      case _ => None
    else if !raw.Str? then None
    else
      var s := Strip(h.isSpace, raw.text);
      var allowed := match q.kind
        case Choice => q.options.Some? && s in q.options.value
        case Date => h.isDate(s)
        case Email => h.isEmail(s)
        case _ => true;
      if allowed && LengthAllowed(q, s) then Some(Str(s)) else None
  }

  predicate IsEmpty(v: Value) {
    v == Null || v == Str("") || v == List([])
  }

  // ----- Conditions -----

  function Lookup(answers: Answers, field: string): Value {
    if field in answers then answers[field] else Null
  }

  /** None is the error raised for a condition that a validator would have rejected. */
  function EvaluateCondition(c: Condition, answers: Answers): Option<bool> {
    match c
    case Composite(every, children) =>
      if children == [] || exists child <- children :: EvaluateCondition(child, answers).None? then None
      else if every then Some(forall child <- children :: EvaluateCondition(child, answers) == Some(true))
      else Some(exists child <- children :: EvaluateCondition(child, answers) == Some(true))
    case Compare(negated, field, value) => Some((Lookup(answers, field) == value) != negated)
    case Member(field, values) => Some(Lookup(answers, field) in values)
    case Unsupported => None
  }

  predicate Holds(when: Option<Condition>, answers: Answers) {
    when.None? || EvaluateCondition(when.value, answers) == Some(true)
  }

  // ----- Questions in schema order -----

  /** A question with its section's condition; `start` is the position of the section's first question. */
  datatype Item = Item(sectionId: string, sectionWhen: Option<Condition>, start: nat, question: Question)

  function SectionItems(section: Section, start: nat): (items: seq<Item>)
    ensures |items| == |section.questions|
    ensures forall j :: 0 <= j < |items| ==>
            items[j] == Item(section.id, section.visibleWhen, start, section.questions[j])
  {
    seq(|section.questions|, j requires 0 <= j < |section.questions| =>
      Item(section.id, section.visibleWhen, start, section.questions[j]))
  }

  function Flat(schema: Schema): seq<Item> {
    if schema == [] then []
    else
      var before := Flat(schema[..|schema| - 1]);
      before + SectionItems(schema[|schema| - 1], |before|)
  }

  function Ids(items: seq<Item>): set<string> {
    set item <- items :: item.question.id
  }

  // ----- The validator -----

  predicate IsIdentifier(s: string) {
    && 0 < |s| <= 80
    && 'a' <= s[0] <= 'z'
    && forall c <- s :: 'a' <= c <= 'z' || '0' <= c <= '9' || c == '_'
  }

  predicate ValidQuestion(h: Host, q: Question) {
    && IsIdentifier(q.id)
    && (if q.kind == Choice
        then q.options.Some? && q.options.value != []
             && (forall o <- q.options.value :: o != "" && Strip(h.isSpace, o) == o)
             && (forall i, j :: 0 <= i < j < |q.options.value| ==> q.options.value[i] != q.options.value[j])
        else q.options.None?)
    && (q.minLength.Some? || q.maxLength.Some? ==> q.kind == Text || q.kind == Textarea || q.kind == Email)
    && (q.minLength.Some? ==> 0 <= q.minLength.value)
    && (q.maxLength.Some? ==> 0 <= q.maxLength.value)
    && (q.minLength.Some? && q.maxLength.Some? ==> q.minLength.value <= q.maxLength.value)
  }

  /** A value a condition may compare with: already in the form in which answers are stored. */
  predicate ValidValue(h: Host, q: Question, v: Value) {
    if q.kind == Boolean then v.Bool? else v.Str? && Coerce(h, q, v) == Some(v)
  }

  /** Some question before position `before` has this id and accepts these values. */
  predicate ValidField(h: Host, items: seq<Item>, before: nat, field: string, values: seq<Value>)
    requires before <= |items|
  {
    exists k :: 0 <= k < before && items[k].question.id == field &&
      forall v <- values :: ValidValue(h, items[k].question, v)
  }

  predicate ValidCondition(h: Host, items: seq<Item>, c: Condition, before: nat, depth: nat)
    requires before <= |items|
    decreases c
  {
    depth < MAX_CONDITION_DEPTH &&
    match c
    case Composite(_, children) =>
      children != [] && forall child <- children :: ValidCondition(h, items, child, before, depth + 1)
    case Compare(_, field, value) => ValidField(h, items, before, field, [value])
    case Member(field, values) => values != [] && ValidField(h, items, before, field, values)
    case Unsupported => false
  }

  predicate ValidWhen(h: Host, items: seq<Item>, when: Option<Condition>, before: nat)
    requires before <= |items|
  {
    when.Some? ==> ValidCondition(h, items, when.value, before, 0)
  }

  predicate UniqueIds(items: seq<Item>) {
    forall i, j :: 0 <= i < j < |items| ==> items[i].question.id != items[j].question.id
  }

  /** The questions obey the rules among themselves. */
  predicate Ordered(h: Host, items: seq<Item>) {
    && UniqueIds(items)
    && (forall k :: 0 <= k < |items| ==>
          && items[k].start <= k
          && ValidQuestion(h, items[k].question)
          && ValidWhen(h, items, items[k].sectionWhen, items[k].start)
          && ValidWhen(h, items, items[k].question.visibleWhen, k))
  }

  predicate Accepted(h: Host, schema: Schema) {
    && schema != []
    && (forall s :: 0 <= s < |schema| ==> IsIdentifier(schema[s].id) && schema[s].questions != [])
    && (forall i, j :: 0 <= i < j < |schema| ==> schema[i].id != schema[j].id)
    && Ordered(h, Flat(schema))
  }

  // ----- One pass over the questions -----

  predicate Active(item: Item, answers: Answers) {
    Holds(item.sectionWhen, answers) && Holds(item.question.visibleWhen, answers)
  }

  /** The pass every evaluator makes: conditions see what was put so far; `put` says what an active question
      contributes. */
  function Pass(items: seq<Item>, put: Question -> Option<Value>): Answers {
    if items == [] then map[]
    else
      var m := Pass(items[..|items| - 1], put);
      var item := items[|items| - 1];
      if Active(item, m) && put(item.question).Some? then m[item.question.id := put(item.question).value] else m
  }

  /** Sanitizing keeps the non-empty answers, coerced. */
  function Kept(h: Host, answers: Answers): Question -> Option<Value> {
    (q: Question) => if q.id in answers && !IsEmpty(answers[q.id]) then Coerce(h, q, answers[q.id]) else None
  }

  /** The server's visibility pass also coerces empty answers, and ignores those it cannot coerce. */
  function Coerced(h: Host, answers: Answers): Question -> Option<Value> {
    (q: Question) => if q.id in answers then Coerce(h, q, answers[q.id]) else None
  }

  /** The browser takes non-empty answers as they are. */
  function Typed(answers: Answers): Question -> Option<Value> {
    (q: Question) => if q.id in answers && answers[q.id] != Null && answers[q.id] != Str("") then Some(answers[q.id])
        else None
  }

  datatype Problem = Required | Invalid | PartnerMismatch

  function QuestionProblem(h: Host, q: Question, answers: Answers, complete: bool): Option<Problem> {
    if q.id !in answers || IsEmpty(answers[q.id]) then
      if complete && q.required then Some(Required) else None
    else if Coerce(h, q, answers[q.id]).None? then Some(Invalid)
    else None
  }

  /** Problems of the active questions, each judged when the pass reaches it. */
  function Problems(h: Host, items: seq<Item>, answers: Answers, complete: bool): map<string, seq<Problem>> {
    if items == [] then map[]
    else
      var rest := Problems(h, items[..|items| - 1], answers, complete);
      var item := items[|items| - 1];
      var problem := QuestionProblem(h, item.question, answers, complete);
      if Active(item, Pass(items[..|items| - 1], Kept(h, answers))) && problem.Some?
      then rest[item.question.id := [problem.value]] else rest
  }

  /** The one rule between two answers. */
  predicate HasPartnerMismatch(h: Host, stored: Answers) {
    && Lookup(stored, "has_married_partner") == Bool(true)
    && Lookup(stored, "married_partner_name").Str? && Lookup(stored, "partner_names").Str?
    && Strip(h.isSpace, stored["married_partner_name"].text) != ""
    && Strip(h.isSpace, stored["partner_names"].text) != ""
    && !h.isPartnerDeclared(stored["married_partner_name"].text, stored["partner_names"].text)
  }

  datatype Sanitized =
    | SchemaRejected
    | Rejected(problems: map<string, seq<Problem>>)
    | Stored(answers: Answers)

  function WithPartnerRule(h: Host, stored: Answers, problems: map<string, seq<Problem>>, complete: bool)
    : map<string, seq<Problem>> {
    if complete && HasPartnerMismatch(h, stored) then
      problems["married_partner_name" :=
        (if "married_partner_name" in problems then problems["married_partner_name"] else []) + [PartnerMismatch]]
    else problems
  }

  function Sanitize(h: Host, schema: Schema, answers: Answers, complete: bool): Sanitized {
    if !Accepted(h, schema) then SchemaRejected
    else
      var stored := Pass(Flat(schema), Kept(h, answers));
      var problems := WithPartnerRule(h, stored, Problems(h, Flat(schema), answers, complete), complete);
      if problems == map[] then Stored(stored) else Rejected(problems)
  }

  /** The active questions, in schema order. */
  function ActiveItems(items: seq<Item>, put: Question -> Option<Value>): seq<Item> {
    if items == [] then []
    else
      var rest := ActiveItems(items[..|items| - 1], put);
      var item := items[|items| - 1];
      if Active(item, Pass(items[..|items| - 1], put)) then rest + [item] else rest
  }

  /** Those of the given questions that have a stored answer, in their order. */
  function WithAnswer(items: seq<Item>, stored: Answers): seq<Item> {
    if items == [] then []
    else
      var rest := WithAnswer(items[..|items| - 1], stored);
      var item := items[|items| - 1];
      if item.question.id in stored then rest + [item] else rest
  }

  /** The report works on the active questions that it recomputes from the stored answers. */
  function ReportRows(h: Host, items: seq<Item>, stored: Answers): seq<Item> {
    WithAnswer(ActiveItems(items, Coerced(h, stored)), stored)
  }

  // ----- The browser's evaluator -----

  predicate BrowserEvaluate(c: Condition, answers: Answers) {
    match c
    case Composite(true, children) => forall child <- children :: BrowserEvaluate(child, answers)
    case Composite(false, children) => exists child <- children :: BrowserEvaluate(child, answers)
    case Compare(negated, field, value) => (field in answers && answers[field] == value) != negated
    case Member(field, values) => field in answers && answers[field] in values
    case Unsupported => false
  }

  predicate BrowserHolds(when: Option<Condition>, answers: Answers) {
    when.None? || BrowserEvaluate(when.value, answers)
  }

  /** The browser's pass, with its own evaluator. */
  function BrowserPass(items: seq<Item>, put: Question -> Option<Value>): Answers {
    if items == [] then map[]
    else
      var m := BrowserPass(items[..|items| - 1], put);
      var item := items[|items| - 1];
      if BrowserHolds(item.sectionWhen, m) && BrowserHolds(item.question.visibleWhen, m) && put(item.question).Some?
      then m[item.question.id := put(item.question).value] else m
  }
}
