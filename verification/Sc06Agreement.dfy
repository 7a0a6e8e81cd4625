/** Agreement between passes: browser and server, draft and completion, stored answers and report. */
module Sc06Agreement {
  import opened Options
  import opened Texts
  import opened Sc06Rules
  import opened Sc06Theorems

  // ----- Two passes side by side -----

  /** Contributions that are equal wherever a question is active give equal passes. */
  lemma {:induction false} PassesEqual(items: seq<Item>, put: Question -> Option<Value>,
                                       put': Question -> Option<Value>, n: nat)
    requires n <= |items|
    requires forall k :: 0 <= k < |items| && Active(items[k], Pass(items[..k], put)) ==>
             put(items[k].question) == put'(items[k].question)
    ensures Pass(items[..n], put) == Pass(items[..n], put')
    ensures ActiveItems(items[..n], put) == ActiveItems(items[..n], put')
    decreases n
  {
    if n > 0 {
      PassesEqual(items, put, put', n - 1);
      assert items[..n][..n - 1] == items[..n - 1] && items[..n][n - 1] == items[n - 1];
    }
  }

  // ----- The browser -----

  /** A pass contains only what was put. */
  lemma {:induction false} PassContains(items: seq<Item>, put: Question -> Option<Value>, ok: Value -> bool)
    requires forall q :: put(q).Some? ==> ok(put(q).value)
    ensures forall id <- Pass(items, put) :: ok(Pass(items, put)[id])
    decreases |items|
  {
    if items != [] {
      PassContains(items[..|items| - 1], put, ok);
    }
  }

  lemma PassWithoutNull(items: seq<Item>, put: Question -> Option<Value>)
    requires forall q :: put(q) != Some(Null)
    ensures forall id <- Pass(items, put) :: Pass(items, put)[id] != Null
  {
    PassContains(items, put, (v: Value) => v != Null);
  }

  lemma BrowserHoldsSame(h: Host, items: seq<Item>, when: Option<Condition>, before: nat, m: Answers)
    requires before <= |items| && ValidWhen(h, items, when, before)
    requires forall id <- m :: m[id] != Null
    ensures BrowserHolds(when, m) == Holds(when, m)
  {
    if when.Some? {
      BrowserEvaluates(h, items, when.value, before, 0, m);
    }
  }

  /** On validated schemas the two evaluators make the same pass over the same contributions. */
  lemma {:induction false} BrowserPassSame(h: Host, items: seq<Item>, put: Question -> Option<Value>, n: nat)
    requires Ordered(h, items) && n <= |items|
    requires forall q :: put(q) != Some(Null)
    ensures BrowserPass(items[..n], put) == Pass(items[..n], put)
    decreases n
  {
    if n > 0 {
      BrowserPassSame(h, items, put, n - 1);
      PassWithoutNull(items[..n - 1], put);
      var item := items[n - 1];
      BrowserHoldsSame(h, items, item.sectionWhen, item.start, Pass(items[..n - 1], put));
      BrowserHoldsSame(h, items, item.question.visibleWhen, n - 1, Pass(items[..n - 1], put));
      assert items[..n][..n - 1] == items[..n - 1] && items[..n][n - 1] == item;
    }
  }

  /** What the browser shows: a section by its condition when the section starts, a question by both. */
  predicate BrowserShowsSection(items: seq<Item>, k: nat, answers: Answers)
    requires k < |items| && items[k].start <= |items|
  {
    BrowserHolds(items[k].sectionWhen, BrowserPass(items[..items[k].start], Typed(answers)))
  }

  predicate BrowserShowsQuestion(items: seq<Item>, k: nat, answers: Answers)
    requires k < |items| && items[k].start <= |items|
  {
    BrowserShowsSection(items, k, answers) &&
    BrowserHolds(items[k].question.visibleWhen, BrowserPass(items[..k], Typed(answers)))
  }

  /** What the server calls active. */
  predicate ServerActivatesSection(h: Host, items: seq<Item>, k: nat, answers: Answers)
    requires k < |items| && items[k].start <= |items|
  {
    Holds(items[k].sectionWhen, Pass(items[..items[k].start], Coerced(h, answers)))
  }

  predicate ServerActivatesQuestion(h: Host, items: seq<Item>, k: nat, answers: Answers)
    requires k < |items|
  {
    Active(items[k], Pass(items[..k], Coerced(h, answers)))
  }

  /** Every answer is absent, empty, a list (which no question takes), or already in its stored form. */
  predicate Normalized(h: Host, items: seq<Item>, answers: Answers) {
    forall k :: 0 <= k < |items| && items[k].question.id in answers ==>
      var v := answers[items[k].question.id];
      v == Null || v == Str("") || v.List? || Coerce(h, items[k].question, v) == Some(v)
  }

  /** The answers without empty texts and lists: what the browser's conditions can see of them. */
  function Seen(m: Answers): Answers {
    map id | id in m && m[id] != Str("") && !m[id].List? :: m[id]
  }

  lemma SeenExtends(m: Answers, id: string, v: Value)
    requires id !in m
    ensures Seen(m[id := v]) == if v == Str("") || v.List? then Seen(m) else Seen(m)[id := v]
  {
  }

  /** Of one answer, the browser and the server see the same, but for the empty text and lists. */
  lemma NormalizedContribution(h: Host, items: seq<Item>, answers: Answers, k: nat)
    requires Normalized(h, items, answers) && k < |items| && h.lower("") == ""
    ensures var q := items[k].question;
            var a, b := Typed(answers)(q), Coerced(h, answers)(q);
            && a != Some(Str("")) && a != Some(Null)
            && (b.Some? ==> !b.value.List? && b.value != Null)
            && (a == b || (a.None? && b == Some(Str(""))) || (a.Some? && a.value.List? && b.None?))
  {
    var q := items[k].question;
    if q.id in answers {
      assert Strip(h.isSpace, "") == "";
    }
  }

  predicate Agree(h: Host, items: seq<Item>, k: nat, answers: Answers)
    requires k < |items| && items[k].start <= |items|
  {
    && BrowserShowsSection(items, k, answers) == ServerActivatesSection(h, items, k, answers)
    && BrowserShowsQuestion(items, k, answers) == ServerActivatesQuestion(h, items, k, answers)
  }

  /** The server decides at question `k` as if no empty text had been answered before. */
  predicate Indifferent(h: Host, items: seq<Item>, k: nat, answers: Answers)
    requires k < |items| && items[k].start <= |items|
  {
    var atSection := Pass(items[..items[k].start], Coerced(h, answers));
    var atQuestion := Pass(items[..k], Coerced(h, answers));
    && Holds(items[k].sectionWhen, atSection) == Holds(items[k].sectionWhen, Seen(atSection))
    && Active(items[k], atQuestion) == Active(items[k], Seen(atQuestion))
  }

  /** While the two decide alike, their passes show the same. */
  lemma {:induction false} PassesSeenSame(h: Host, items: seq<Item>, answers: Answers, n: nat)
    requires Ordered(h, items) && Normalized(h, items, answers) && h.lower("") == "" && n <= |items|
    requires forall k :: 0 <= k < n ==> Agree(h, items, k, answers)
    ensures Seen(Pass(items[..n], Typed(answers))) == Seen(Pass(items[..n], Coerced(h, answers)))
    decreases n
  {
    if n > 0 {
      var k := n - 1;
      PassesSeenSame(h, items, answers, k);
      assert Agree(h, items, k, answers);
      BrowserShowsPass(h, items, k, answers);
      NormalizedContribution(h, items, answers, k);
      NewId(items, k);
      PassSeenStep(items, Typed(answers), k);
      PassSeenStep(items, Coerced(h, answers), k);
    }
  }

  lemma PassSeenStep(items: seq<Item>, put: Question -> Option<Value>, k: nat)
    requires UniqueIds(items) && k < |items|
    ensures var m := Pass(items[..k], put);
            var q := items[k].question;
            Seen(Pass(items[..k + 1], put)) ==
              if Active(items[k], m) && put(q).Some? && put(q) != Some(Str("")) && !put(q).value.List?
              then Seen(m)[q.id := put(q).value] else Seen(m)
  {
    var m := Pass(items[..k], put);
    var q := items[k].question;
    NewId(items, k);
    PassKeys(items[..k], put);
    PassStep(items, put, k);
    if put(q).Some? {
      SeenExtends(m, q.id, put(q).value);
    }
  }

  /** No validated condition sees a list. */
  lemma {:induction false} EvaluateSeesNoList(h: Host, items: seq<Item>, c: Condition, before: nat, depth: nat,
                                              m: Answers)
    requires before <= |items| && ValidCondition(h, items, c, before, depth)
    requires forall id <- m :: m[id] != Str("")
    ensures EvaluateCondition(c, m) == EvaluateCondition(c, Seen(m))
    decreases c
  {
    match c
    case Composite(every, children) =>
      forall child | child in children
        ensures EvaluateCondition(child, m) == EvaluateCondition(child, Seen(m))
      {
        EvaluateSeesNoList(h, items, child, before, depth + 1, m);
      }
    case Compare(_, field, value) =>
      ValidValuesAreScalars(h, items, before, field, [value]);
      assert value in [value];
    case Member(field, values) =>
      ValidValuesAreScalars(h, items, before, field, values);
  }

  lemma ValidValuesAreScalars(h: Host, items: seq<Item>, before: nat, field: string, values: seq<Value>)
    requires before <= |items| && ValidField(h, items, before, field, values)
    ensures forall v <- values :: v.Bool? || v.Str?
  {
    var k :| 0 <= k < before && items[k].question.id == field &&
        forall v <- values :: ValidValue(h, items[k].question, v);
  }

  lemma HoldsSeesNoList(h: Host, items: seq<Item>, when: Option<Condition>, before: nat, m: Answers)
    requires before <= |items| && ValidWhen(h, items, when, before)
    requires forall id <- m :: m[id] != Str("")
    ensures Holds(when, m) == Holds(when, Seen(m))
  {
    if when.Some? {
      EvaluateSeesNoList(h, items, when.value, before, 0, m);
    }
  }

  /** The next decision, when all earlier ones agreed. */
  lemma AgreeHere(h: Host, items: seq<Item>, answers: Answers, k: nat)
    requires Ordered(h, items) && Normalized(h, items, answers) && h.lower("") == "" && k < |items|
    requires forall j :: 0 <= j < k ==> Agree(h, items, j, answers)
    ensures Agree(h, items, k, answers) <==> Indifferent(h, items, k, answers)
  {
    var start := items[k].start;
    BrowserShowsPass(h, items, k, answers);
    PassesSeenSame(h, items, answers, start);
    PassesSeenSame(h, items, answers, k);
    PassContains(items[..start], Typed(answers), (v: Value) => v != Str(""));
    PassContains(items[..k], Typed(answers), (v: Value) => v != Str(""));
    HoldsSeesNoList(h, items, items[k].sectionWhen, start, Pass(items[..start], Typed(answers)));
    HoldsSeesNoList(h, items, items[k].sectionWhen, start, Pass(items[..k], Typed(answers)));
    HoldsSeesNoList(h, items, items[k].question.visibleWhen, k, Pass(items[..k], Typed(answers)));
  }

  predicate StartsInside(items: seq<Item>) {
    forall k :: 0 <= k < |items| ==> items[k].start <= |items|
  }

  predicate AgreeUpTo(h: Host, items: seq<Item>, answers: Answers, n: nat)
    requires n <= |items| && StartsInside(items)
  {
    forall k :: 0 <= k < n ==> Agree(h, items, k, answers)
  }

  predicate IndifferentUpTo(h: Host, items: seq<Item>, answers: Answers, n: nat)
    requires n <= |items| && StartsInside(items)
  {
    forall k :: 0 <= k < n ==> Indifferent(h, items, k, answers)
  }

  lemma UpToNext(h: Host, items: seq<Item>, answers: Answers, n: nat)
    requires n < |items| && StartsInside(items)
    ensures AgreeUpTo(h, items, answers, n + 1) <==> AgreeUpTo(h, items, answers, n) && Agree(h, items, n, answers)
    ensures IndifferentUpTo(h, items, answers, n + 1) <==>
            IndifferentUpTo(h, items, answers, n) && Indifferent(h, items, n, answers)
  {
  }

  lemma OrderedStarts(h: Host, items: seq<Item>)
    requires Ordered(h, items)
    ensures StartsInside(items)
  {
  }

  /** Up to any question, browser and server show the same exactly when the server decides, at each of these
      questions, as if no empty text had been answered. So they part at the first question where it does not. */
  lemma {:induction false} AgreementIffIndifferent(h: Host, items: seq<Item>, answers: Answers, n: nat)
    requires Ordered(h, items) && Normalized(h, items, answers) && h.lower("") == ""
    requires n <= |items| && StartsInside(items)
    ensures AgreeUpTo(h, items, answers, n) <==> IndifferentUpTo(h, items, answers, n)
    decreases n
  {
    if n > 0 {
      AgreementIffIndifferent(h, items, answers, n - 1);
      AgreementNext(h, items, answers, n - 1);
    }
  }

  lemma AgreementNext(h: Host, items: seq<Item>, answers: Answers, k: nat)
    requires Ordered(h, items) && Normalized(h, items, answers) && h.lower("") == ""
    requires k < |items| && StartsInside(items)
    requires AgreeUpTo(h, items, answers, k) <==> IndifferentUpTo(h, items, answers, k)
    ensures AgreeUpTo(h, items, answers, k + 1) <==> IndifferentUpTo(h, items, answers, k + 1)
  {
    UpToNext(h, items, answers, k);
    if AgreeUpTo(h, items, answers, k) {
      AgreeHere(h, items, answers, k);
    }
  }

  /** Browser and server show the same sections and questions exactly when the server's decisions do not depend
      on answered empty texts. */
  lemma BrowserAgreesIff(h: Host, schema: Schema, answers: Answers)
    requires Accepted(h, schema) && Normalized(h, Flat(schema), answers) && h.lower("") == ""
    ensures (forall k :: 0 <= k < |Flat(schema)| ==> Agree(h, Flat(schema), k, answers)) <==>
            (forall k :: 0 <= k < |Flat(schema)| ==> Indifferent(h, Flat(schema), k, answers))
  {
    OrderedStarts(h, Flat(schema));
    AgreementIffIndifferent(h, Flat(schema), answers, |Flat(schema)|);
  }

  predicate NoEmptyComparison(items: seq<Item>) {
    forall k :: 0 <= k < |items| ==>
      !WhenComparesToEmpty(items[k].sectionWhen) && !WhenComparesToEmpty(items[k].question.visibleWhen)
  }

  lemma SameButEmpty(items: seq<Item>, h: Host, answers: Answers, n: nat, id: string)
    requires n <= |items|
    ensures var m := Pass(items[..n], Coerced(h, answers)); SameUpToEmpty(m, Seen(m), id)
  {
    PassContains(items[..n], Coerced(h, answers), (v: Value) => !v.List?);
  }

  /** Without comparisons to the empty text nothing depends on it. */
  lemma NoComparisonIsIndifferent(h: Host, items: seq<Item>, answers: Answers, k: nat)
    requires Ordered(h, items) && NoEmptyComparison(items) && k < |items|
    ensures Indifferent(h, items, k, answers)
  {
    var start := items[k].start;
    forall id
      ensures SameUpToEmpty(Pass(items[..start], Coerced(h, answers)), Seen(Pass(items[..start], Coerced(h, answers))),
                            id)
      ensures SameUpToEmpty(Pass(items[..k], Coerced(h, answers)), Seen(Pass(items[..k], Coerced(h, answers))), id)
    {
      SameButEmpty(items, h, answers, start, id);
      SameButEmpty(items, h, answers, k, id);
    }
    var atSection, atQuestion := Pass(items[..start], Coerced(h, answers)), Pass(items[..k], Coerced(h, answers));
    HoldsFrame(h, items, items[k].sectionWhen, start, atSection, Seen(atSection));
    HoldsFrame(h, items, items[k].sectionWhen, start, atQuestion, Seen(atQuestion));
    HoldsFrame(h, items, items[k].question.visibleWhen, k, atQuestion, Seen(atQuestion));
  }

  /** In particular, they always agree on a schema that never compares with the empty text. */
  lemma BrowserAgreesWithServer(h: Host, schema: Schema, answers: Answers, k: nat)
    requires Accepted(h, schema) && NoEmptyComparison(Flat(schema)) && Normalized(h, Flat(schema), answers)
    requires h.lower("") == "" && k < |Flat(schema)|
    ensures BrowserShowsSection(Flat(schema), k, answers) == ServerActivatesSection(h, Flat(schema), k, answers)
    ensures BrowserShowsQuestion(Flat(schema), k, answers) == ServerActivatesQuestion(h, Flat(schema), k, answers)
  {
    forall j | 0 <= j < |Flat(schema)|
      ensures Indifferent(h, Flat(schema), j, answers)
    {
      NoComparisonIsIndifferent(h, Flat(schema), answers, j);
    }
    BrowserAgreesIff(h, schema, answers);
    assert Agree(h, Flat(schema), k, answers);
  }

  /** What the browser shows, in terms of the server's evaluator. */
  lemma BrowserShowsPass(h: Host, items: seq<Item>, k: nat, answers: Answers)
    requires Ordered(h, items) && k < |items|
    ensures BrowserShowsSection(items, k, answers) ==
            Holds(items[k].sectionWhen, Pass(items[..items[k].start], Typed(answers)))
    ensures BrowserShowsQuestion(items, k, answers) == Active(items[k], Pass(items[..k], Typed(answers)))
  {
    var start := items[k].start;
    var put := Typed(answers);
    BrowserPassSame(h, items, put, start);
    BrowserPassSame(h, items, put, k);
    PassWithoutNull(items[..start], put);
    PassWithoutNull(items[..k], put);
    BrowserHoldsSame(h, items, items[k].sectionWhen, start, Pass(items[..start], put));
    BrowserHoldsSame(h, items, items[k].question.visibleWhen, k, Pass(items[..k], put));
    SectionStable(h, items, put, k);
  }

  /** A section condition has the same value for all questions of the section. */
  lemma SectionStable(h: Host, items: seq<Item>, put: Question -> Option<Value>, k: nat)
    requires Ordered(h, items) && k < |items|
    ensures Holds(items[k].sectionWhen, Pass(items[..items[k].start], put)) ==
            Holds(items[k].sectionWhen, Pass(items[..k], put))
  {
    var start := items[k].start;
    assert items[..k][..start] == items[..start];
    PrefixUnique(items, k);
    PassPrefix(items[..k], put, start);
    HoldsFrame(h, items, items[k].sectionWhen, start, Pass(items[..start], put), Pass(items[..k], put));
  }

  lemma PrefixUnique(items: seq<Item>, k: nat)
    requires UniqueIds(items) && k <= |items|
    ensures UniqueIds(items[..k])
  {
  }

  /** They can part: a schema that the validator accepts, and an empty answer. */
  const FIRST: Question := Question("a", Text, false, None, None, None, None)
  const SECOND: Question := Question("b", Text, false, None, None, None, Some(Compare(false, "a", Str(""))))
  const SPLIT_SCHEMA: Schema := [Section("s", None, [FIRST, SECOND])]
  const SPLIT_ITEMS: seq<Item> := [Item("s", None, 0, FIRST), Item("s", None, 0, SECOND)]

  lemma FlatOfOne(section: Section, a: Question, b: Question)
    requires section.questions == [a, b]
    ensures Flat([section]) ==
            [Item(section.id, section.visibleWhen, 0, a), Item(section.id, section.visibleWhen, 0, b)]
  {
    assert [section][..0] == [];
    assert Flat([section]) == SectionItems(section, 0);
  }

  lemma SplitSchemaIsFlat()
    ensures Flat(SPLIT_SCHEMA) == SPLIT_ITEMS
  {
    FlatOfOne(Section("s", None, [FIRST, SECOND]), FIRST, SECOND);
  }

  lemma SplitConditionIsValid(h: Host, items: seq<Item>)
    requires |items| == 2 && items[0].question == FIRST
    ensures ValidWhen(h, items, SECOND.visibleWhen, 1)
  {
    assert Strip(h.isSpace, "") == "";
    assert ValidValue(h, items[0].question, Str(""));
    assert ValidField(h, items, 1, "a", [Str("")]);
  }

  lemma SplitSchemaIsAccepted(h: Host)
    ensures Accepted(h, SPLIT_SCHEMA)
  {
    SplitSchemaIsFlat();
    var items := SPLIT_ITEMS;
    SplitConditionIsValid(h, items);
    forall k | 0 <= k < |items|
      ensures items[k].start <= k && ValidQuestion(h, items[k].question)
      ensures ValidWhen(h, items, items[k].sectionWhen, items[k].start) &&
              ValidWhen(h, items, items[k].question.visibleWhen, k)
    {
      assert k == 0 || k == 1;
    }
  }

  lemma EmptyComparisonSplitsBrowserAndServer(h: Host)
    ensures var answers: Answers := map["a" := Str("")];
            var items := Flat(SPLIT_SCHEMA);
            && Accepted(h, SPLIT_SCHEMA) && Normalized(h, items, answers) && |items| == 2
            && ServerActivatesQuestion(h, items, 1, answers) && !BrowserShowsQuestion(items, 1, answers)
  {
    SplitSchemaIsAccepted(h);
    SplitSchemaIsFlat();
    var items := SPLIT_ITEMS;
    var answers: Answers := map["a" := Str("")];
    assert Strip(h.isSpace, "") == "" && Coerce(h, FIRST, Str("")) == Some(Str(""));
    PassOfOne(items[0], Coerced(h, answers));
    BrowserPassOfOne(items[0], Typed(answers));
    assert items[..1] == [items[0]] && items[..0] == [];
  }

  lemma PassOfOne(item: Item, put: Question -> Option<Value>)
    requires item.sectionWhen.None? && item.question.visibleWhen.None? && put(item.question).Some?
    ensures Pass([item], put) == map[item.question.id := put(item.question).value]
  {
    assert [item][..0] == [];
  }

  lemma BrowserPassOfOne(item: Item, put: Question -> Option<Value>)
    requires put(item.question).None?
    ensures BrowserPass([item], put) == map[]
  {
    assert [item][..0] == [];
  }

  // ----- Sanitizing again -----

  predicate NoEmptyText(m: Answers) {
    forall id <- m :: m[id] != Str("")
  }

  /** The stored answer of a question, and what it contributes when it is read back. */
  lemma StoredReadsBack(h: Host, items: seq<Item>, answers: Answers, k: nat)
    requires Ordered(h, items) && k < |items|
    requires Active(items[k], Pass(items[..k], Kept(h, answers)))
    ensures var m := Pass(items, Kept(h, answers));
            var q := items[k].question;
            && (q.id in m <==> Kept(h, answers)(q).Some?)
            && (q.id in m ==> Coerce(h, q, m[q.id]) == Some(m[q.id]) && m[q.id] != Null && !m[q.id].List?)
            && Coerced(h, m)(q) == Kept(h, answers)(q)
            && ((q.id in m ==> m[q.id] != Str("")) ==> Kept(h, m)(q) == Kept(h, answers)(q))
  {
    var q := items[k].question;
    PassHere(items, Kept(h, answers), k, true);
    if Kept(h, answers)(q).Some? {
      CoerceIdempotent(h, q, answers[q.id]);
    }
  }

  lemma SameWhenReadBack(h: Host, items: seq<Item>, answers: Answers)
    requires Ordered(h, items)
    ensures var m := Pass(items, Kept(h, answers));
            NoEmptyText(m) ==> Pass(items, Kept(h, m)) == m
  {
    var m := Pass(items, Kept(h, answers));
    if NoEmptyText(m) {
      forall k | 0 <= k < |items| && Active(items[k], Pass(items[..k], Kept(h, answers)))
        ensures Kept(h, answers)(items[k].question) == Kept(h, m)(items[k].question)
      {
        StoredReadsBack(h, items, answers, k);
      }
      PassesEqual(items, Kept(h, answers), Kept(h, m), |items|);
      assert items[..|items|] == items;
    }
  }

  predicate SameAt(p: map<string, seq<Problem>>, p': map<string, seq<Problem>>, id: string) {
    (id in p <==> id in p') && (id in p ==> p[id] == p'[id])
  }

  lemma SameReports(items: seq<Item>, p: map<string, seq<Problem>>, p': map<string, seq<Problem>>)
    requires p.Keys <= Ids(items) && p'.Keys <= Ids(items)
    requires forall k :: 0 <= k < |items| ==> SameAt(p, p', items[k].question.id)
    ensures p == p'
  {
    forall id | id in Ids(items)
      ensures SameAt(p, p', id)
    {
      var item :| item in items && item.question.id == id;
      var k :| 0 <= k < |items| && items[k] == item;
    }
  }

  lemma SameReportHere(h: Host, item: Item, answers: Answers, m: Answers, m': Answers, complete: bool,
                       p: map<string, seq<Problem>>, p': map<string, seq<Problem>>)
    requires ReportedExactly(h, item, m, answers, complete, p) && ReportedExactly(h, item, m', m, complete, p')
    requires Active(item, m) == Active(item, m')
    requires Active(item, m) ==>
             QuestionProblem(h, item.question, m, complete) == QuestionProblem(h, item.question, answers, complete)
    ensures SameAt(p, p', item.question.id)
  {
  }

  /** Reading back the stored answers reports the same problems, except that invalid answers, which are not
      stored, are gone. */
  lemma SameProblemsReadBack(h: Host, items: seq<Item>, answers: Answers, complete: bool)
    requires Ordered(h, items) && NoEmptyText(Pass(items, Kept(h, answers)))
    requires Problems(h, items, answers, false) == map[]
    ensures Problems(h, items, Pass(items, Kept(h, answers)), complete) == Problems(h, items, answers, complete)
  {
    var m := Pass(items, Kept(h, answers));
    SameWhenReadBack(h, items, answers);
    NoProblems(h, items, answers, false);
    ProblemsExact(h, items, answers, complete);
    ProblemsExact(h, items, m, complete);
    var p, p' := Problems(h, items, answers, complete), Problems(h, items, m, complete);
    forall k | 0 <= k < |items|
      ensures SameAt(p, p', items[k].question.id)
    {
      if Active(items[k], m) {
        SameProblemReadBack(h, items, answers, complete, k);
      }
      SameReportHere(h, items[k], answers, m, Pass(items, Kept(h, m)), complete, p, p');
    }
    SameReports(items, p, p');
  }

  lemma SameProblemReadBack(h: Host, items: seq<Item>, answers: Answers, complete: bool, k: nat)
    requires Ordered(h, items) && NoEmptyText(Pass(items, Kept(h, answers))) && k < |items|
    requires Active(items[k], Pass(items, Kept(h, answers)))
    requires QuestionProblem(h, items[k].question, answers, false).None?
    ensures QuestionProblem(h, items[k].question, Pass(items, Kept(h, answers)), complete) ==
            QuestionProblem(h, items[k].question, answers, complete)
  {
    PassActive(h, items, Kept(h, answers), k);
    StoredReadsBack(h, items, answers, k);
  }

  /** Where an empty text is stored, reading back drops it. */
  lemma EmptyTextIsDropped(h: Host, items: seq<Item>, m: Answers, id: string)
    requires Ordered(h, items) && id in m && m[id] == Str("") && id in Ids(items)
    ensures id !in Pass(items, Kept(h, m))
  {
    var item :| item in items && item.question.id == id;
    var k :| 0 <= k < |items| && items[k] == item;
    PassAt(h, items, Kept(h, m), k);
  }

  lemma DraftNoProblems(h: Host, items: seq<Item>, answers: Answers, complete: bool)
    requires Ordered(h, items) && Problems(h, items, answers, complete) == map[]
    ensures Problems(h, items, answers, false) == map[]
  {
    NoProblems(h, items, answers, complete);
    ProblemsExact(h, items, answers, false);
    var p := Problems(h, items, answers, false);
    forall id | id in Ids(items)
      ensures id !in p
    {
      var item :| item in items && item.question.id == id;
      var k :| 0 <= k < |items| && items[k] == item;
      assert ReportedExactly(h, items[k], Pass(items, Kept(h, answers)), answers, false, p);
    }
  }

  /** Sanitizing what was stored stores it again, in either mode, exactly when no stored answer is the empty text. */
  lemma SanitizeIsIdempotent(h: Host, schema: Schema, answers: Answers, complete: bool)
    requires Sanitize(h, schema, answers, complete).Stored?
    ensures var m := Sanitize(h, schema, answers, complete).answers;
            Sanitize(h, schema, m, complete) == Stored(m) <==> NoEmptyText(m)
  {
    var items := Flat(schema);
    var m := Pass(items, Kept(h, answers));
    assert Problems(h, items, answers, complete) == map[] by {
      WithPartnerRuleEmpty(h, m, Problems(h, items, answers, complete), complete);
    }
    DraftNoProblems(h, items, answers, complete);
    PassKeys(items, Kept(h, answers));
    if NoEmptyText(m) {
      SameWhenReadBack(h, items, answers);
      SameProblemsReadBack(h, items, answers, complete);
    } else {
      var id :| id in m && m[id] == Str("");
      EmptyTextIsDropped(h, items, m, id);
    }
  }

  lemma WithPartnerRuleEmpty(h: Host, m: Answers, problems: map<string, seq<Problem>>, complete: bool)
    ensures WithPartnerRule(h, m, problems, complete) == map[] ==> problems == map[]
  {
    if complete && HasPartnerMismatch(h, m) {
      assert "married_partner_name" in WithPartnerRule(h, m, problems, complete);
    }
  }

  /** Saving a draft and completing from it gives what completing directly gives, errors included, when the
      draft stored no empty text; when completing directly succeeds, only then. */
  lemma CompletingFromDraft(h: Host, schema: Schema, answers: Answers)
    requires Sanitize(h, schema, answers, false).Stored?
    ensures var m := Sanitize(h, schema, answers, false).answers;
            var direct := Sanitize(h, schema, answers, true);
            && (NoEmptyText(m) ==> Sanitize(h, schema, m, true) == direct)
            && (direct.Stored? && Sanitize(h, schema, m, true) == direct ==> NoEmptyText(m))
  {
    var items := Flat(schema);
    var m := Pass(items, Kept(h, answers));
    PassKeys(items, Kept(h, answers));
    if NoEmptyText(m) {
      SameWhenReadBack(h, items, answers);
      SameProblemsReadBack(h, items, answers, true);
    } else {
      var id :| id in m && m[id] == Str("");
      EmptyTextIsDropped(h, items, m, id);
    }
  }

  // ----- Completing from a draft that stored empty texts -----

  /** A required question that is active on `m` and has no answer there. */
  predicate Missing(item: Item, m: Answers) {
    item.question.required && Active(item, m) && item.question.id !in m
  }

  predicate SameMissing(items: seq<Item>, m: Answers, m': Answers) {
    forall k :: 0 <= k < |items| ==> Missing(items[k], m) == Missing(items[k], m')
  }

  /** Completing reports exactly the missing questions, when nothing given is invalid. */
  predicate ReportsMissing(items: seq<Item>, m: Answers, p: map<string, seq<Problem>>) {
    && p.Keys <= Ids(items)
    && (forall k :: 0 <= k < |items| ==> (items[k].question.id in p <==> Missing(items[k], m)))
    && (forall id <- p :: p[id] == [Required])
  }

  lemma MissingHere(h: Host, items: seq<Item>, answers: Answers, k: nat)
    requires Ordered(h, items) && k < |items|
    requires Active(items[k], Pass(items, Kept(h, answers))) ==>
             QuestionProblem(h, items[k].question, answers, false).None?
    ensures var m := Pass(items, Kept(h, answers));
            var problem := QuestionProblem(h, items[k].question, answers, true);
            && (Active(items[k], m) && problem.Some? <==> Missing(items[k], m))
            && (Missing(items[k], m) ==> problem == Some(Required))
  {
    PassAt(h, items, Kept(h, answers), k);
  }

  lemma MissingIsReported(h: Host, items: seq<Item>, answers: Answers)
    requires Ordered(h, items) && Problems(h, items, answers, false) == map[]
    ensures ReportsMissing(items, Pass(items, Kept(h, answers)), Problems(h, items, answers, true))
  {
    var m := Pass(items, Kept(h, answers));
    var p := Problems(h, items, answers, true);
    NoProblems(h, items, answers, false);
    ProblemsExact(h, items, answers, true);
    forall k | 0 <= k < |items|
      ensures items[k].question.id in p <==> Missing(items[k], m)
      ensures items[k].question.id in p ==> p[items[k].question.id] == [Required]
    {
      assert ReportedExactly(h, items[k], m, answers, true, p);
      MissingHere(h, items, answers, k);
    }
    forall id | id in p
      ensures p[id] == [Required]
    {
      var item :| item in items && item.question.id == id;
      var k :| 0 <= k < |items| && items[k] == item;
      assert items[k].question.id in p;
    }
  }

  /** What was stored is valid when it is given again. */
  lemma StoredIsValid(h: Host, items: seq<Item>, answers: Answers)
    requires Ordered(h, items)
    ensures Problems(h, items, Pass(items, Kept(h, answers)), false) == map[]
  {
    var m := Pass(items, Kept(h, answers));
    var p := Problems(h, items, m, false);
    ProblemsExact(h, items, m, false);
    forall k | 0 <= k < |items|
      ensures items[k].question.id !in p
    {
      assert ReportedExactly(h, items[k], Pass(items, Kept(h, m)), m, false, p);
      PassAt(h, items, Kept(h, answers), k);
      if items[k].question.id in m {
        CoerceIdempotent(h, items[k].question, answers[items[k].question.id]);
      }
    }
    forall id | id in Ids(items)
      ensures id !in p
    {
      var item :| item in items && item.question.id == id;
      var k :| 0 <= k < |items| && items[k] == item;
    }
  }

  predicate OnlyRequired(p: map<string, seq<Problem>>) {
    forall id <- p :: p[id] == [Required]
  }

  /** The rule between two answers never hides a difference between two reports of missing questions. */
  lemma PartnerRuleKeepsApart(h: Host, m: Answers, m': Answers, p: map<string, seq<Problem>>,
                              p': map<string, seq<Problem>>)
    requires OnlyRequired(p) && OnlyRequired(p')
    ensures WithPartnerRule(h, m, p, true) == WithPartnerRule(h, m', p', true) <==>
            p == p' && HasPartnerMismatch(h, m) == HasPartnerMismatch(h, m')
  {
    var r, r' := WithPartnerRule(h, m, p, true), WithPartnerRule(h, m', p', true);
    var partner := "married_partner_name";
    if r == r' {
      PartnerRuleAt(h, m, p);
      PartnerRuleAt(h, m', p');
      assert HasPartnerMismatch(h, m) == (partner in r && r[partner][|r[partner]| - 1] == PartnerMismatch);
      forall id
        ensures id in p <==> id in p'
      {
        assert id in p <==> id in r && r[id][0] == Required;
        assert id in p' <==> id in r' && r'[id][0] == Required;
      }
      assert p.Keys == p'.Keys;
    }
  }

  lemma PartnerRuleAt(h: Host, m: Answers, p: map<string, seq<Problem>>)
    requires OnlyRequired(p)
    ensures var r := WithPartnerRule(h, m, p, true);
            && (forall id <- r :: r[id] != [] && (id in p <==> r[id][0] == Required))
            && (forall id <- p :: id in r)
            && (HasPartnerMismatch(h, m) ==
                ("married_partner_name" in r &&
                 r["married_partner_name"][|r["married_partner_name"]| - 1] == PartnerMismatch))
  {
  }

  lemma SameReportsIff(items: seq<Item>, m: Answers, m': Answers, p: map<string, seq<Problem>>,
                       p': map<string, seq<Problem>>)
    requires ReportsMissing(items, m, p) && ReportsMissing(items, m', p')
    ensures p == p' <==> SameMissing(items, m, m')
  {
    if SameMissing(items, m, m') {
      forall k | 0 <= k < |items|
        ensures SameAt(p, p', items[k].question.id)
      {
        assert Missing(items[k], m) == Missing(items[k], m');
      }
      SameReports(items, p, p');
    } else {
      var k :| 0 <= k < |items| && Missing(items[k], m) != Missing(items[k], m');
      assert items[k].question.id in p <==> Missing(items[k], m);
      assert items[k].question.id in p' <==> Missing(items[k], m');
    }
  }

  /** What completing reports, at once and from the draft. */
  lemma ReportsOnCompletion(h: Host, items: seq<Item>, answers: Answers)
    requires Ordered(h, items) && Problems(h, items, answers, false) == map[]
    ensures var m := Pass(items, Kept(h, answers));
            var m' := Pass(items, Kept(h, m));
            var direct := WithPartnerRule(h, m, Problems(h, items, answers, true), true);
            var fromDraft := WithPartnerRule(h, m', Problems(h, items, m, true), true);
            direct == fromDraft <==> SameMissing(items, m, m') && HasPartnerMismatch(h, m) == HasPartnerMismatch(h, m')
  {
    var m := Pass(items, Kept(h, answers));
    var m' := Pass(items, Kept(h, m));
    MissingIsReported(h, items, answers);
    StoredIsValid(h, items, answers);
    MissingIsReported(h, items, m);
    var p, p' := Problems(h, items, answers, true), Problems(h, items, m, true);
    SameReportsIff(items, m, m', p, p');
    PartnerRuleKeepsApart(h, m, m', p, p');
  }

  lemma SanitizeIs(h: Host, schema: Schema, answers: Answers, complete: bool)
    requires Accepted(h, schema)
    ensures var stored := Pass(Flat(schema), Kept(h, answers));
            var problems := WithPartnerRule(h, stored, Problems(h, Flat(schema), answers, complete), complete);
            Sanitize(h, schema, answers, complete) == if problems == map[] then Stored(stored) else Rejected(problems)
  {
  }

  /** The exact condition, on every accepted schema: the draft stored no empty text; or completing at once is rejected,
      the same required questions are active and unanswered on the stored answers and on what is read back from
      them, and the rule between two answers decides alike on both. */
  lemma CompletingFromDraftIff(h: Host, schema: Schema, answers: Answers)
    requires Sanitize(h, schema, answers, false).Stored?
    ensures var m := Sanitize(h, schema, answers, false).answers;
            var m' := Pass(Flat(schema), Kept(h, m));
            var direct := Sanitize(h, schema, answers, true);
            Sanitize(h, schema, m, true) == direct <==>
              || NoEmptyText(m)
              || (direct.Rejected? && SameMissing(Flat(schema), m, m') &&
                  HasPartnerMismatch(h, m) == HasPartnerMismatch(h, m'))
  {
    var m := Sanitize(h, schema, answers, false).answers;
    SanitizeIs(h, schema, answers, false);
    SanitizeIs(h, schema, answers, true);
    SanitizeIs(h, schema, m, true);
    CompletingFromDraft(h, schema, answers);
    ReportsOnCompletion(h, Flat(schema), answers);
  }

  // ----- The same on schemas that never compare with the empty text -----

  lemma SeenSame(a: Answers, b: Answers, id: string)
    requires Seen(a) == Seen(b) && (forall x <- a :: !a[x].List?) && (forall x <- b :: !b[x].List?)
    ensures SameUpToEmpty(a, b, id)
  {
    assert id in Seen(a) <==> id in Seen(b);
  }

  lemma ActiveAlike(h: Host, items: seq<Item>, k: nat, a: Answers, b: Answers)
    requires Ordered(h, items) && NoEmptyComparison(items) && k < |items|
    requires Seen(a) == Seen(b) && (forall x <- a :: !a[x].List?) && (forall x <- b :: !b[x].List?)
    ensures Active(items[k], a) == Active(items[k], b)
  {
    forall id
      ensures SameUpToEmpty(a, b, id)
    {
      SeenSame(a, b, id);
    }
    HoldsFrame(h, items, items[k].sectionWhen, items[k].start, a, b);
    HoldsFrame(h, items, items[k].question.visibleWhen, k, a, b);
  }

  /** Reading back drops the empty texts and nothing else. */
  lemma {:induction false} ReadBackSeenSame(h: Host, items: seq<Item>, answers: Answers, n: nat)
    requires Ordered(h, items) && NoEmptyComparison(items) && n <= |items|
    ensures var m := Pass(items, Kept(h, answers));
            Seen(Pass(items[..n], Kept(h, m))) == Seen(Pass(items[..n], Kept(h, answers)))
    decreases n
  {
    var m := Pass(items, Kept(h, answers));
    if n > 0 {
      var k := n - 1;
      ReadBackSeenSame(h, items, answers, k);
      PassContains(items[..k], Kept(h, answers), (v: Value) => !v.List?);
      PassContains(items[..k], Kept(h, m), (v: Value) => !v.List?);
      ActiveAlike(h, items, k, Pass(items[..k], Kept(h, answers)), Pass(items[..k], Kept(h, m)));
      PassSeenStep(items, Kept(h, answers), k);
      PassSeenStep(items, Kept(h, m), k);
      if Active(items[k], Pass(items[..k], Kept(h, answers))) {
        StoredReadsBack(h, items, answers, k);
      }
    }
  }

  lemma WholeSeenSame(items: seq<Item>, put: Question -> Option<Value>, put': Question -> Option<Value>)
    requires Seen(Pass(items[..|items|], put)) == Seen(Pass(items[..|items|], put'))
    ensures Seen(Pass(items, put)) == Seen(Pass(items, put'))
  {
    assert items[..|items|] == items;
  }

  lemma KeptHasNoList(h: Host, items: seq<Item>, answers: Answers)
    ensures var m := Pass(items, Kept(h, answers)); forall id <- m :: !m[id].List?
  {
    PassContains(items, Kept(h, answers), (v: Value) => !v.List?);
  }

  /** The stored answers `m` and what is read back from them. */
  lemma ReadBack(h: Host, items: seq<Item>, answers: Answers, m: Answers, m': Answers)
    requires Ordered(h, items) && NoEmptyComparison(items)
    requires m == Pass(items, Kept(h, answers)) && m' == Pass(items, Kept(h, m))
    ensures Seen(m') == Seen(m)
    ensures (forall id <- m :: !m[id].List?) && (forall id <- m' :: !m'[id].List?)
    ensures forall k :: 0 <= k < |items| ==> Active(items[k], m) == Active(items[k], m')
  {
    ReadBackSeenSame(h, items, answers, |items|);
    WholeSeenSame(items, Kept(h, m), Kept(h, answers));
    KeptHasNoList(h, items, answers);
    KeptHasNoList(h, items, m);
    ActiveAllAlike(h, items, m, m');
  }

  lemma ActiveAllAlike(h: Host, items: seq<Item>, a: Answers, b: Answers)
    requires Ordered(h, items) && NoEmptyComparison(items)
    requires Seen(a) == Seen(b) && (forall x <- a :: !a[x].List?) && (forall x <- b :: !b[x].List?)
    ensures forall k :: 0 <= k < |items| ==> Active(items[k], a) == Active(items[k], b)
  {
    forall k | 0 <= k < |items|
      ensures Active(items[k], a) == Active(items[k], b)
    {
      ActiveAlike(h, items, k, a, b);
    }
  }

  /** A required question whose answer was stored as the empty text. */
  predicate RequiredIsEmpty(items: seq<Item>, m: Answers) {
    exists k :: 0 <= k < |items| && DroppedAt(items[k], m)
  }

  lemma SamePartnerRule(h: Host, m: Answers, m': Answers)
    requires Seen(m) == Seen(m') && (forall id <- m :: !m[id].List?) && (forall id <- m' :: !m'[id].List?)
    ensures HasPartnerMismatch(h, m) == HasPartnerMismatch(h, m')
  {
    assert Strip(h.isSpace, "") == "";
    SeenLookup(m, m', "has_married_partner");
    SeenLookup(m, m', "married_partner_name");
    SeenLookup(m, m', "partner_names");
  }

  lemma SeenLookup(m: Answers, m': Answers, id: string)
    requires Seen(m) == Seen(m') && (forall x <- m :: !m[x].List?) && (forall x <- m' :: !m'[x].List?)
    ensures (id in m && m[id] != Str("")) == (id in m' && m'[id] != Str(""))
    ensures id in m && m[id] != Str("") ==> m'[id] == m[id]
  {
    assert id in Seen(m) <==> id in Seen(m');
    assert id in Seen(m) ==> Seen(m)[id] == Seen(m')[id];
  }

  predicate DroppedAt(item: Item, m: Answers) {
    item.question.required && item.question.id in m && m[item.question.id] == Str("")
  }

  lemma MissingFromDraft(h: Host, items: seq<Item>, answers: Answers, m: Answers, m': Answers, k: nat)
    requires Ordered(h, items) && k < |items|
    requires m == Pass(items, Kept(h, answers)) && m' == Pass(items, Kept(h, m))
    requires Active(items[k], m) == Active(items[k], m')
    ensures ToldApart(items[k], m, m')
  {
    PassAt(h, items, Kept(h, answers), k);
    PassAt(h, items, Kept(h, m), k);
    if items[k].question.id in m {
      CoerceIdempotent(h, items[k].question, answers[items[k].question.id]);
    }
  }

  /** There the draft stored no empty text, or completing at once is rejected and no required question was stored as the
      empty text. */
  lemma CompletingWithoutEmptyComparison(h: Host, schema: Schema, answers: Answers)
    requires Sanitize(h, schema, answers, false).Stored? && NoEmptyComparison(Flat(schema))
    ensures var m := Sanitize(h, schema, answers, false).answers;
            var direct := Sanitize(h, schema, answers, true);
            Sanitize(h, schema, m, true) == direct <==>
              NoEmptyText(m) || (direct.Rejected? && !RequiredIsEmpty(Flat(schema), m))
  {
    var items := Flat(schema);
    var m := Pass(items, Kept(h, answers));
    var m' := Pass(items, Kept(h, m));
    SanitizeIs(h, schema, answers, false);
    CompletingFromDraftIff(h, schema, answers);
    ReadBack(h, items, answers, m, m');
    SamePartnerRule(h, m, m');
    DroppedOrSame(h, items, answers, m, m');
  }

  /** A question is missing from only one of the two exactly when its empty text was dropped. */
  predicate ToldApart(item: Item, m: Answers, m': Answers) {
    Missing(item, m) == Missing(item, m') <==> !DroppedAt(item, m)
  }

  lemma SameUnlessDropped(items: seq<Item>, m: Answers, m': Answers)
    requires forall k :: 0 <= k < |items| ==> ToldApart(items[k], m, m')
    ensures SameMissing(items, m, m') <==> !RequiredIsEmpty(items, m)
  {
    if RequiredIsEmpty(items, m) {
      var k :| 0 <= k < |items| && DroppedAt(items[k], m);
      assert ToldApart(items[k], m, m');
    } else {
      forall k | 0 <= k < |items|
        ensures Missing(items[k], m) == Missing(items[k], m')
      {
        assert ToldApart(items[k], m, m') && !DroppedAt(items[k], m);
      }
    }
  }

  lemma DroppedOrSame(h: Host, items: seq<Item>, answers: Answers, m: Answers, m': Answers)
    requires Ordered(h, items) && m == Pass(items, Kept(h, answers)) && m' == Pass(items, Kept(h, m))
    requires forall k :: 0 <= k < |items| ==> Active(items[k], m) == Active(items[k], m')
    ensures SameMissing(items, m, m') <==> !RequiredIsEmpty(items, m)
  {
    forall k | 0 <= k < |items|
      ensures ToldApart(items[k], m, m')
    {
      MissingFromDraft(h, items, answers, m, m', k);
    }
    SameUnlessDropped(items, m, m');
  }

  // ----- The report -----

  lemma {:induction false} StoredAreActive(items: seq<Item>, put: Question -> Option<Value>, m: Answers, n: nat)
    requires n <= |items|
    requires forall k :: 0 <= k < |items| && items[k].question.id in m ==> Active(items[k], Pass(items[..k], put))
    ensures WithAnswer(ActiveItems(items[..n], put), m) == WithAnswer(items[..n], m)
    decreases n
  {
    if n > 0 {
      StoredAreActive(items, put, m, n - 1);
      assert items[..n][..n - 1] == items[..n - 1] && items[..n][n - 1] == items[n - 1];
      var rest := ActiveItems(items[..n - 1], put);
      assert (rest + [items[n - 1]])[..|rest|] == rest;
    }
  }

  lemma {:induction false} WithAnswerCovers(items: seq<Item>, m: Answers)
    ensures forall row <- WithAnswer(items, m) :: row in items && row.question.id in m
    ensures forall item <- items :: item.question.id in m ==> item in WithAnswer(items, m)
    ensures UniqueIds(items) ==> UniqueIds(WithAnswer(items, m))
    decreases |items|
  {
    if items != [] {
      var init := items[..|items| - 1];
      WithAnswerCovers(init, m);
      assert items == init + [items[|items| - 1]];
      if UniqueIds(items) {
        forall row | row in init
          ensures row.question.id != items[|items| - 1].question.id
        {
          var j :| 0 <= j < |init| && init[j] == row;
          assert items[j] == row;
        }
      }
    }
  }

  /** The active questions recomputed from the stored answers are those of the sanitizing pass, and the report
      has, in schema order, exactly one row for each stored answer and no other row. */
  lemma ReportCoversStored(h: Host, schema: Schema, answers: Answers, complete: bool)
    requires Sanitize(h, schema, answers, complete).Stored?
    ensures var m := Sanitize(h, schema, answers, complete).answers;
            var items := Flat(schema);
            var rows := ReportRows(h, items, m);
            && ActiveItems(items, Coerced(h, m)) == ActiveItems(items, Kept(h, answers))
            && rows == WithAnswer(items, m)
            && UniqueIds(rows)
            && (set row <- rows :: row.question.id) == m.Keys
  {
    var items := Flat(schema);
    var put := Kept(h, answers);
    var m := Pass(items, put);
    forall k | 0 <= k < |items|
      ensures Active(items[k], Pass(items[..k], put)) ==> put(items[k].question) == Coerced(h, m)(items[k].question)
      ensures items[k].question.id in m ==> Active(items[k], Pass(items[..k], put))
    {
      if Active(items[k], Pass(items[..k], put)) {
        StoredReadsBack(h, items, answers, k);
      } else {
        PassHere(items, put, k, false);
      }
    }
    PassesEqual(items, put, Coerced(h, m), |items|);
    StoredAreActive(items, put, m, |items|);
    assert items[..|items|] == items;
    WithAnswerCovers(items, m);
    PassKeys(items, put);
    KeysFromRows(items, m);
  }

  lemma KeysFromRows(items: seq<Item>, m: Answers)
    requires m.Keys <= Ids(items)
    ensures (set row <- WithAnswer(items, m) :: row.question.id) == m.Keys
  {
    WithAnswerCovers(items, m);
    forall id | id in m
      ensures exists row <- WithAnswer(items, m) :: row.question.id == id
    {
      var item :| item in items && item.question.id == id;
      assert item in WithAnswer(items, m);
    }
  }
}
