/** What the questionnaire engine promises: its one pass is a fixed point, the browser agrees with the server,
    sanitizing is stable, and the report covers what was stored. */
module Sc06Theorems {
  import opened Options
  import opened Texts
  import opened Sc06Rules

  // ----- Coercion -----

  /** A coerced answer is its own coercion. */
  lemma CoerceIdempotent(h: Host, q: Question, raw: Value)
    requires Coerce(h, q, raw).Some?
    ensures Coerce(h, q, Coerce(h, q, raw).value) == Coerce(h, q, raw)
    ensures Coerce(h, q, raw).value.Bool? || Coerce(h, q, raw).value.Str?
  {
    if q.kind != Boolean {
      StripIdempotent(h.isSpace, raw.text);
    }
  }

  // ----- Conditions see only the questions they refer to -----

  /** The two answer sets agree as far as conditions without comparisons to the empty text can tell. */
  predicate SameUpToEmpty(a: Answers, b: Answers, field: string) {
    || Lookup(a, field) == Lookup(b, field)
    || (Lookup(a, field) in {Null, Str("")} && Lookup(b, field) in {Null, Str("")})
  }

  predicate ComparesToEmpty(c: Condition) {
    match c
    case Composite(_, children) => exists child <- children :: ComparesToEmpty(child)
    case Compare(_, _, value) => value == Str("")
    case Member(_, values) => Str("") in values
    case Unsupported => false
  }

  predicate WhenComparesToEmpty(when: Option<Condition>) {
    when.Some? && ComparesToEmpty(when.value)
  }

  lemma ValidFieldKnown(h: Host, items: seq<Item>, before: nat, field: string, values: seq<Value>)
    requires before <= |items| && ValidField(h, items, before, field, values)
    ensures field in Ids(items[..before]) && Null !in values
  {
    var k :| 0 <= k < before && items[k].question.id == field &&
        forall v <- values :: ValidValue(h, items[k].question, v);
    assert items[..before][k] == items[k];
  }

  /** A validated condition never raises, and its value depends only on earlier questions. */
  lemma {:induction false} EvaluateFrame(h: Host, items: seq<Item>, c: Condition, before: nat, depth: nat, a: Answers,
                                         b: Answers)
    requires before <= |items| && ValidCondition(h, items, c, before, depth)
    requires if ComparesToEmpty(c) then forall id <- Ids(items[..before]) :: Lookup(a, id) == Lookup(b, id)
             else forall id <- Ids(items[..before]) :: SameUpToEmpty(a, b, id)
    ensures EvaluateCondition(c, a).Some? && EvaluateCondition(c, a) == EvaluateCondition(c, b)
    decreases c
  {
    match c
    case Composite(every, children) =>
      forall child | child in children
        ensures EvaluateCondition(child, a).Some? && EvaluateCondition(child, a) == EvaluateCondition(child, b)
      {
        EvaluateFrame(h, items, child, before, depth + 1, a, b);
      }
    case Compare(_, field, value) =>
      ValidFieldKnown(h, items, before, field, [value]);
      assert value in [value];
    case Member(field, values) =>
      ValidFieldKnown(h, items, before, field, values);
  }

  lemma {:induction false} BrowserEvaluates(h: Host, items: seq<Item>, c: Condition, before: nat, depth: nat,
                                            a: Answers)
    requires before <= |items| && ValidCondition(h, items, c, before, depth)
    requires forall id <- a :: a[id] != Null
    ensures EvaluateCondition(c, a) == Some(BrowserEvaluate(c, a))
    decreases c
  {
    match c
    case Composite(every, children) =>
      forall child | child in children
        ensures EvaluateCondition(child, a) == Some(BrowserEvaluate(child, a))
      {
        BrowserEvaluates(h, items, child, before, depth + 1, a);
      }
    case Compare(_, field, value) =>
      ValidFieldKnown(h, items, before, field, [value]);
      assert value in [value];
    case Member(field, values) =>
      ValidFieldKnown(h, items, before, field, values);
  }

  lemma HoldsFrame(h: Host, items: seq<Item>, when: Option<Condition>, before: nat, a: Answers, b: Answers)
    requires before <= |items| && ValidWhen(h, items, when, before)
    requires if WhenComparesToEmpty(when) then forall id <- Ids(items[..before]) :: Lookup(a, id) == Lookup(b, id)
             else forall id <- Ids(items[..before]) :: SameUpToEmpty(a, b, id)
    ensures Holds(when, a) == Holds(when, b)
    ensures when.Some? ==> EvaluateCondition(when.value, a).Some?
  {
    if when.Some? {
      EvaluateFrame(h, items, when.value, before, 0, a, b);
    }
  }

  lemma IdsMonotonic(items: seq<Item>, n: nat, m: nat)
    requires n <= m <= |items|
    ensures Ids(items[..n]) <= Ids(items[..m])
  {
    forall item | item in items[..n]
      ensures item in items[..m]
    {
      var k :| 0 <= k < n && items[k] == item;
      assert items[..m][k] == item;
    }
  }

  /** Whether a question is active depends on the answers to earlier questions only. */
  lemma ActiveFrame(h: Host, items: seq<Item>, k: nat, a: Answers, b: Answers)
    requires Ordered(h, items) && k < |items|
    requires forall id <- Ids(items[..k]) :: Lookup(a, id) == Lookup(b, id)
    ensures Active(items[k], a) == Active(items[k], b)
  {
    IdsMonotonic(items, items[k].start, k);
    HoldsFrame(h, items, items[k].sectionWhen, items[k].start, a, b);
    HoldsFrame(h, items, items[k].question.visibleWhen, k, a, b);
  }

  // ----- The pass -----

  lemma {:induction false} PassKeys(items: seq<Item>, put: Question -> Option<Value>)
    ensures Pass(items, put).Keys <= Ids(items)
    decreases |items|
  {
    if items != [] {
      PassKeys(items[..|items| - 1], put);
      assert items[|items| - 1] in items;
    }
  }

  /** Later questions do not change what the pass decided about earlier ones. */
  lemma {:induction false} PassPrefix(items: seq<Item>, put: Question -> Option<Value>, k: nat)
    requires UniqueIds(items) && k <= |items|
    ensures forall id <- Ids(items[..k]) :: Lookup(Pass(items, put), id) == Lookup(Pass(items[..k], put), id)
    ensures forall id <- Ids(items[..k]) :: id in Pass(items, put) <==> id in Pass(items[..k], put)
    decreases |items|
  {
    if k == |items| {
      assert items[..k] == items;
    } else {
      var init := items[..|items| - 1];
      assert init[..k] == items[..k];
      PassPrefix(init, put, k);
      forall id | id in Ids(items[..k])
        ensures id != items[|items| - 1].question.id
      {
        var item :| item in items[..k] && item.question.id == id;
        var j :| 0 <= j < k && items[..k][j] == item;
        assert items[j].question.id == id;
      }
    }
  }

  /** `m` answers exactly the questions that are active under `m` itself and that contribute something. */
  predicate IsFixedPoint(items: seq<Item>, put: Question -> Option<Value>, m: Answers) {
    && m.Keys <= Ids(items)
    && forall k :: 0 <= k < |items| ==>
         var q := items[k].question;
         && (q.id in m <==> Active(items[k], m) && put(q).Some?)
         && (q.id in m ==> Some(m[q.id]) == put(q))
  }

  /** The one pass finds a fixed point of the declarative rule. */
  lemma PassIsFixedPoint(h: Host, items: seq<Item>, put: Question -> Option<Value>)
    requires Ordered(h, items)
    ensures IsFixedPoint(items, put, Pass(items, put))
  {
    var m := Pass(items, put);
    PassKeys(items, put);
    forall k | 0 <= k < |items|
      ensures var q := items[k].question;
              && (q.id in m <==> Active(items[k], m) && put(q).Some?)
              && (q.id in m ==> Some(m[q.id]) == put(q))
    {
      PassAt(h, items, put, k);
    }
  }

  lemma NewId(items: seq<Item>, k: nat)
    requires UniqueIds(items) && k < |items|
    ensures items[k].question.id !in Ids(items[..k])
    ensures items[..k + 1] == items[..k] + [items[k]]
    ensures Ids(items[..k + 1]) == Ids(items[..k]) + {items[k].question.id}
  {
    forall item | item in items[..k]
      ensures item.question.id != items[k].question.id
    {
      var j :| 0 <= j < k && items[..k][j] == item;
    }
    assert items[..k + 1] == items[..k] + [items[k]];
  }

  lemma PassStep(items: seq<Item>, put: Question -> Option<Value>, k: nat)
    requires k < |items|
    ensures var m := Pass(items[..k], put);
            var q := items[k].question;
            Pass(items[..k + 1], put) == if Active(items[k], m) && put(q).Some? then m[q.id := put(q).value] else m
  {
    assert items[..k + 1][..k] == items[..k] && items[..k + 1][k] == items[k];
  }

  /** What the whole pass holds for question `k`, from what it held just before. */
  lemma PassHere(items: seq<Item>, put: Question -> Option<Value>, k: nat, active: bool)
    requires UniqueIds(items) && k < |items| && active == Active(items[k], Pass(items[..k], put))
    ensures var q := items[k].question;
            var m := Pass(items, put);
            && (q.id in m <==> active && put(q).Some?)
            && (q.id in m ==> Some(m[q.id]) == put(q))
  {
    PassKeys(items[..k], put);
    NewId(items, k);
    PassStep(items, put, k);
    PassPrefixAt(items, put, k + 1, items[k].question.id);
  }

  lemma PassAt(h: Host, items: seq<Item>, put: Question -> Option<Value>, k: nat)
    requires Ordered(h, items) && k < |items|
    ensures var q := items[k].question;
            var m := Pass(items, put);
            && (q.id in m <==> Active(items[k], m) && put(q).Some?)
            && (q.id in m ==> Some(m[q.id]) == put(q))
  {
    PassActive(h, items, put, k);
    PassHere(items, put, k, Active(items[k], Pass(items, put)));
  }

  lemma PassActive(h: Host, items: seq<Item>, put: Question -> Option<Value>, k: nat)
    requires Ordered(h, items) && k < |items|
    ensures Active(items[k], Pass(items, put)) == Active(items[k], Pass(items[..k], put))
  {
    PassPrefix(items, put, k);
    ActiveFrame(h, items, k, Pass(items, put), Pass(items[..k], put));
  }

  lemma PassPrefixAt(items: seq<Item>, put: Question -> Option<Value>, k: nat, id: string)
    requires UniqueIds(items) && k <= |items| && id in Ids(items[..k])
    ensures id in Pass(items, put) <==> id in Pass(items[..k], put)
    ensures id in Pass(items, put) ==> Pass(items, put)[id] == Pass(items[..k], put)[id]
  {
    PassPrefix(items, put, k);
    assert Lookup(Pass(items, put), id) == Lookup(Pass(items[..k], put), id);
  }

  /** And there is no other fixed point. */
  lemma FixedPointUnique(h: Host, items: seq<Item>, put: Question -> Option<Value>, m: Answers)
    requires Ordered(h, items) && IsFixedPoint(items, put, m)
    ensures m == Pass(items, put)
  {
    var p := Pass(items, put);
    PassIsFixedPoint(h, items, put);
    FixedPointsAgree(h, items, put, m, p, |items|);
    assert items[..|items|] == items;
    forall id | id in Ids(items)
      ensures id in m <==> id in p
      ensures id in m ==> m[id] == p[id]
    {
    }
  }

  lemma {:induction false} FixedPointsAgree(h: Host, items: seq<Item>, put: Question -> Option<Value>, m: Answers,
                                            p: Answers, n: nat)
    requires Ordered(h, items) && n <= |items|
    requires IsFixedPoint(items, put, m) && IsFixedPoint(items, put, p)
    ensures forall id <- Ids(items[..n]) :: (id in m <==> id in p) && Lookup(m, id) == Lookup(p, id)
    decreases n
  {
    if n > 0 {
      FixedPointsAgree(h, items, put, m, p, n - 1);
      ActiveFrame(h, items, n - 1, m, p);
      assert items[..n] == items[..n - 1] + [items[n - 1]];
      var q := items[n - 1].question;
      assert q.id in m <==> q.id in p;
    }
  }

  /** Sanitizing a draft: exactly one answer set satisfies the declarative rule, and it is the one stored. */
  lemma SanitizeIsTheFixedPoint(h: Host, schema: Schema, answers: Answers, m: Answers)
    requires Sanitize(h, schema, answers, false).Stored?
    ensures Sanitize(h, schema, answers, false) == Stored(m) <==>
      && m.Keys <= Ids(Flat(schema))
      && forall k :: 0 <= k < |Flat(schema)| ==>
           var item := Flat(schema)[k];
           var q := item.question;
           && (q.id in m <==>
               Holds(item.sectionWhen, m) && Holds(q.visibleWhen, m) && q.id in answers && !IsEmpty(answers[q.id]))
           && (q.id in m ==> Some(m[q.id]) == Coerce(h, q, answers[q.id]))
  {
    var items := Flat(schema);
    var put := Kept(h, answers);
    PassIsFixedPoint(h, items, put);
    NoProblems(h, items, answers, false);
    var stored := Pass(items, put);
    if forall k :: 0 <= k < |items| ==>
         var item := items[k];
         var q := item.question;
         && (q.id in m <==>
             Holds(item.sectionWhen, m) && Holds(q.visibleWhen, m) && q.id in answers && !IsEmpty(answers[q.id]))
         && (q.id in m ==> Some(m[q.id]) == Coerce(h, q, answers[q.id])) {
      if m.Keys <= Ids(items) {
        assert IsFixedPoint(items, put, m);
        FixedPointUnique(h, items, put, m);
      }
    }
  }

  // ----- Problems -----

  /** The question at `item` is reported exactly when it is active and has a problem. */
  predicate ReportedExactly(h: Host, item: Item, m: Answers, answers: Answers, complete: bool,
                            problems: map<string, seq<Problem>>) {
    var problem := QuestionProblem(h, item.question, answers, complete);
    && (item.question.id in problems <==> Active(item, m) && problem.Some?)
    && (item.question.id in problems ==> problems[item.question.id] == [problem.value])
  }

  /** Each problem belongs to an active question, and each active question with a problem is reported. */
  lemma ProblemsExact(h: Host, items: seq<Item>, answers: Answers, complete: bool)
    requires Ordered(h, items)
    ensures var m := Pass(items, Kept(h, answers));
            var problems := Problems(h, items, answers, complete);
            && problems.Keys <= Ids(items)
            && forall k :: 0 <= k < |items| ==> ReportedExactly(h, items[k], m, answers, complete, problems)
  {
    ProblemsUpTo(h, items, answers, complete, |items|);
    assert items[..|items|] == items;
  }

  lemma {:induction false} ProblemsUpTo(h: Host, items: seq<Item>, answers: Answers, complete: bool, n: nat)
    requires Ordered(h, items) && n <= |items|
    ensures var m := Pass(items, Kept(h, answers));
            var problems := Problems(h, items[..n], answers, complete);
            && problems.Keys <= Ids(items[..n])
            && forall k :: 0 <= k < n ==> ReportedExactly(h, items[k], m, answers, complete, problems)
    decreases n
  {
    if n > 0 {
      ProblemsUpTo(h, items, answers, complete, n - 1);
      NewId(items, n - 1);
      PassActive(h, items, Kept(h, answers), n - 1);
      ProblemsStep(h, items, answers, complete, n - 1);
      var m := Pass(items, Kept(h, answers));
      ReportedExtends(h, items, m, answers, complete, n - 1, Problems(h, items[..n - 1], answers, complete));
    }
  }

  lemma ReportedExtends(h: Host, items: seq<Item>, m: Answers, answers: Answers, complete: bool, n: nat,
                        rest: map<string, seq<Problem>>)
    requires UniqueIds(items) && n < |items| && items[n].question.id !in rest
    requires forall k :: 0 <= k < n ==> ReportedExactly(h, items[k], m, answers, complete, rest)
    ensures var problem := QuestionProblem(h, items[n].question, answers, complete);
            var problems := if Active(items[n], m) && problem.Some? then rest[items[n].question.id := [problem.value]]
                else rest;
            forall k :: 0 <= k < n + 1 ==> ReportedExactly(h, items[k], m, answers, complete, problems)
  {
    var problem := QuestionProblem(h, items[n].question, answers, complete);
    var problems := if Active(items[n], m) && problem.Some? then rest[items[n].question.id := [problem.value]]
        else rest;
    forall k | 0 <= k < n + 1
      ensures ReportedExactly(h, items[k], m, answers, complete, problems)
    {
      if k < n {
        assert ReportedExactly(h, items[k], m, answers, complete, rest);
        assert items[k].question.id != items[n].question.id;
      }
    }
  }

  lemma ProblemsStep(h: Host, items: seq<Item>, answers: Answers, complete: bool, k: nat)
    requires k < |items|
    ensures var rest := Problems(h, items[..k], answers, complete);
            var problem := QuestionProblem(h, items[k].question, answers, complete);
            Problems(h, items[..k + 1], answers, complete) ==
              if Active(items[k], Pass(items[..k], Kept(h, answers))) && problem.Some?
              then rest[items[k].question.id := [problem.value]] else rest
  {
    assert items[..k + 1][..k] == items[..k] && items[..k + 1][k] == items[k];
  }

  lemma NoProblems(h: Host, items: seq<Item>, answers: Answers, complete: bool)
    requires Ordered(h, items) && Problems(h, items, answers, complete) == map[]
    ensures forall k :: 0 <= k < |items| && Active(items[k], Pass(items, Kept(h, answers))) ==>
              QuestionProblem(h, items[k].question, answers, complete).None?
  {
    ProblemsExact(h, items, answers, complete);
    forall k | 0 <= k < |items| && Active(items[k], Pass(items, Kept(h, answers)))
      ensures QuestionProblem(h, items[k].question, answers, complete).None?
    {
      assert ReportedExactly(h, items[k], Pass(items, Kept(h, answers)), answers, complete, map[]);
    }
  }
}
