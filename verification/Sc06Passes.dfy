/** The passes over a questionnaire as loops over sections and questions, on the server and in the browser, and
    the briefing that stores their result. */
module Sc06Passes {
  import opened Options
  import opened Sc06Rules
  import opened Sc06Theorems
  import opened Sc06Agreement
  import opened Sc06Engine

  // ----- One section of a pass -----

  lemma PassSnoc(items: seq<Item>, item: Item, put: Question -> Option<Value>)
    ensures var m, q := Pass(items, put), item.question;
            Pass(items + [item], put) == if Active(item, m) && put(q).Some? then m[q.id := put(q).value] else m
  {
    assert (items + [item])[..|items|] == items;
  }

  lemma ProblemsSnoc(h: Host, items: seq<Item>, item: Item, answers: Answers, complete: bool)
    ensures var rest, problem :=
            Problems(h, items, answers, complete), QuestionProblem(h, item.question, answers, complete);
            Problems(h, items + [item], answers, complete) ==
              if Active(item, Pass(items, Kept(h, answers))) && problem.Some?
                  then rest[item.question.id := [problem.value]] else rest
  {
    assert (items + [item])[..|items|] == items;
  }

  lemma ActiveSnoc(items: seq<Item>, item: Item, put: Question -> Option<Value>)
    ensures ActiveItems(items + [item], put) ==
            ActiveItems(items, put) + (if Active(item, Pass(items, put)) then [item] else [])
  {
    assert (items + [item])[..|items|] == items;
  }

  lemma BrowseSnoc(items: seq<Item>, item: Item, put: Question -> Option<Value>)
    ensures var m, q := BrowserPass(items, put), item.question;
            BrowserPass(items + [item], put) ==
              if BrowserHolds(item.sectionWhen, m) && BrowserHolds(q.visibleWhen, m) && put(q).Some?
                  then m[q.id := put(q).value] else m
  {
    assert (items + [item])[..|items|] == items;
  }

  lemma AddedNext(before: seq<Item>, added: seq<Item>, n: nat)
    requires 0 < n <= |added|
    ensures before + added[..n] == before + added[..n - 1] + [added[n - 1]]
  {
  }

  /** While a pass goes through the questions of a section, the section's condition keeps its value. */
  predicate Stable(before: seq<Item>, added: seq<Item>, when: Option<Condition>, put: Question -> Option<Value>) {
    forall n :: 0 <= n < |added| ==> Holds(when, Pass(before + added[..n], put)) == Holds(when, Pass(before, put))
  }

  /** The questions of section `s`, and those before it. */
  function Added(schema: Schema, s: nat): (added: seq<Item>)
    requires s < |schema|
    ensures |added| == |schema[s].questions|
  {
    SectionItems(schema[s], |Flat(schema[..s])|)
  }

  lemma AddedIsNext(schema: Schema, s: nat)
    requires s < |schema|
    ensures Flat(schema[..s + 1]) == Flat(schema[..s]) + Added(schema, s)
  {
    FlatSection(schema, s);
  }

  lemma AddedAt(schema: Schema, s: nat, n: nat)
    requires s < |schema| && n < |schema[s].questions|
    ensures var k := |Flat(schema[..s])| + n;
            && k < |Flat(schema)| && Flat(schema)[k] == Added(schema, s)[n]
            && Flat(schema)[..k] == Flat(schema[..s]) + Added(schema, s)[..n]
            && Flat(schema)[..|Flat(schema[..s])|] == Flat(schema[..s])
  {
    FlatPrefix(schema, s);
    FlatPrefix(schema, s + 1);
    AddedIsNext(schema, s);
    FlatAt(schema, s, n);
    assert Flat(schema)[..|Flat(schema[..s])| + n] ==
        Flat(schema)[..|Flat(schema[..s + 1])|][..|Flat(schema[..s])| + n];
  }

  lemma StableAt(h: Host, items: seq<Item>, k: nat, item: Item, put: Question -> Option<Value>, before: seq<Item>,
                 reached: seq<Item>)
    requires Ordered(h, items) && k < |items| && items[k] == item
    requires item.start == |before| && items[..|before|] == before && items[..k] == reached
    ensures Holds(item.sectionWhen, Pass(reached, put)) == Holds(item.sectionWhen, Pass(before, put))
  {
    SectionStable(h, items, put, k);
  }

  lemma AcceptedIsStable(h: Host, schema: Schema, s: nat, put: Question -> Option<Value>)
    requires Accepted(h, schema) && s < |schema|
    ensures Stable(Flat(schema[..s]), Added(schema, s), schema[s].visibleWhen, put)
  {
    var before, added := Flat(schema[..s]), Added(schema, s);
    forall n | 0 <= n < |added|
      ensures Holds(schema[s].visibleWhen, Pass(before + added[..n], put)) ==
              Holds(schema[s].visibleWhen, Pass(before, put))
    {
      AddedAt(schema, s, n);
      StableAt(h, Flat(schema), |before| + n, added[n], put, before, before + added[..n]);
    }
  }

  /** The pass over the questions of one active section, continuing from `m`. */
  function SectionPass(questions: seq<Question>, m: Answers, put: Question -> Option<Value>): Answers {
    if questions == [] then m
    else
      var r := SectionPass(questions[..|questions| - 1], m, put);
      var q := questions[|questions| - 1];
      if Holds(q.visibleWhen, r) && put(q).Some? then r[q.id := put(q).value] else r
  }

  function SectionProblems(h: Host, questions: seq<Question>, m: Answers, answers: Answers, complete: bool,
                           problems: map<string, seq<Problem>>): map<string, seq<Problem>> {
    if questions == [] then problems
    else
      var rest := SectionProblems(h, questions[..|questions| - 1], m, answers, complete, problems);
      var q := questions[|questions| - 1];
      var problem := QuestionProblem(h, q, answers, complete);
      if Holds(q.visibleWhen, SectionPass(questions[..|questions| - 1], m, Kept(h, answers))) && problem.Some?
      then rest[q.id := [problem.value]] else rest
  }

  function SectionActive(questions: seq<Question>, m: Answers, put: Question -> Option<Value>): seq<Question> {
    if questions == [] then []
    else
      var rest := SectionActive(questions[..|questions| - 1], m, put);
      var q := questions[|questions| - 1];
      if Holds(q.visibleWhen, SectionPass(questions[..|questions| - 1], m, put)) then rest + [q] else rest
  }

  function InSection(section: Section, start: nat, questions: seq<Question>): seq<Item> {
    if questions == [] then []
    else
      InSection(section, start, questions[..|questions| - 1]) +
      [Item(section.id, section.visibleWhen, start, questions[|questions| - 1])]
  }

  lemma SectionActiveSnoc(section: Section, start: nat, n: nat, m: Answers, put: Question -> Option<Value>)
    requires 0 < n <= |section.questions|
    ensures var q, rest := section.questions[n - 1], SectionActive(section.questions[..n - 1], m, put);
            InSection(section, start, SectionActive(section.questions[..n], m, put)) ==
              InSection(section, start, rest) +
              (if Holds(q.visibleWhen, SectionPass(section.questions[..n - 1], m, put))
               then [Item(section.id, section.visibleWhen, start, q)] else [])
  {
    PrefixSteps(section.questions, n);
    InSectionExtends(section, start, SectionActive(section.questions[..n - 1], m, put), section.questions[n - 1]);
  }

  /** The answers put up to question `n` of a section. */
  predicate PassUpTo(before: seq<Item>, added: seq<Item>, section: Section, put: Question -> Option<Value>, n: nat)
    requires n <= |added| == |section.questions|
  {
    var m := Pass(before, put);
    Pass(before + added[..n], put) ==
      if Holds(section.visibleWhen, m) then SectionPass(section.questions[..n], m, put) else m
  }

  lemma {:induction false} PassOverSection(before: seq<Item>, added: seq<Item>, section: Section,
                                           put: Question -> Option<Value>, n: nat)
    requires added == SectionItems(section, |before|) && Stable(before, added, section.visibleWhen, put) && n <= |added|
    ensures PassUpTo(before, added, section, put, n)
    decreases n
  {
    if n == 0 {
      assert before + added[..n] == before;
    } else {
      PassOverSection(before, added, section, put, n - 1);
      PassOfNext(before, added, section, put, n - 1);
    }
  }

  lemma PassOfNext(before: seq<Item>, added: seq<Item>, section: Section, put: Question -> Option<Value>, n: nat)
    requires added == SectionItems(section, |before|) && Stable(before, added, section.visibleWhen, put) && n < |added|
    requires PassUpTo(before, added, section, put, n)
    ensures PassUpTo(before, added, section, put, n + 1)
  {
    AddedNext(before, added, n + 1);
    PassSnoc(before + added[..n], added[n], put);
    SectionPassSnoc(section.questions, n + 1, Pass(before, put), put);
  }

  lemma SectionPassSnoc(questions: seq<Question>, n: nat, m: Answers, put: Question -> Option<Value>)
    requires 0 < n <= |questions|
    ensures var q, r := questions[n - 1], SectionPass(questions[..n - 1], m, put);
            SectionPass(questions[..n], m, put) == if Holds(q.visibleWhen, r) && put(q).Some?
                then r[q.id := put(q).value] else r
  {
    PrefixSteps(questions, n);
  }

  lemma SectionProblemsSnoc(h: Host, questions: seq<Question>, n: nat, m: Answers, answers: Answers, complete: bool,
                            problems: map<string, seq<Problem>>)
    requires 0 < n <= |questions|
    ensures var q, rest := questions[n - 1], SectionProblems(h, questions[..n - 1], m, answers, complete, problems);
            var problem := QuestionProblem(h, q, answers, complete);
            SectionProblems(h, questions[..n], m, answers, complete, problems) ==
              if Holds(q.visibleWhen, SectionPass(questions[..n - 1], m, Kept(h, answers))) && problem.Some?
              then rest[q.id := [problem.value]] else rest
  {
    PrefixSteps(questions, n);
  }

  /** One more question of the section, after the flat list has reached `reached`. */
  lemma NextProblems(h: Host, reached: seq<Item>, section: Section, start: nat, n: nat, m: Answers,
                     rest: map<string, seq<Problem>>, answers: Answers, complete: bool)
    requires n < |section.questions|
    requires var seen := Holds(section.visibleWhen, m);
             && Holds(section.visibleWhen, Pass(reached, Kept(h, answers))) == seen
             && Pass(reached, Kept(h, answers)) ==
                  (if seen then SectionPass(section.questions[..n], m, Kept(h, answers)) else m)
             && Problems(h, reached, answers, complete) ==
                  (if seen then SectionProblems(h, section.questions[..n], m, answers, complete, rest) else rest)
    ensures Problems(h, reached + [Item(section.id, section.visibleWhen, start, section.questions[n])], answers,
                     complete) ==
              if Holds(section.visibleWhen, m)
                  then SectionProblems(h, section.questions[..n + 1], m, answers, complete, rest) else rest
  {
    ProblemsSnoc(h, reached, Item(section.id, section.visibleWhen, start, section.questions[n]), answers, complete);
    SectionProblemsSnoc(h, section.questions, n + 1, m, answers, complete, rest);
  }

  /** The problems found up to question `n` of a section. */
  predicate ProblemsUpTo(h: Host, before: seq<Item>, added: seq<Item>, section: Section, answers: Answers,
                         complete: bool, n: nat)
    requires n <= |added| == |section.questions|
  {
    var m, rest := Pass(before, Kept(h, answers)), Problems(h, before, answers, complete);
    Problems(h, before + added[..n], answers, complete) ==
      if Holds(section.visibleWhen, m) then SectionProblems(h, section.questions[..n], m, answers, complete, rest)
      else rest
  }

  lemma {:induction false} ProblemsOverSection(h: Host, before: seq<Item>, added: seq<Item>, section: Section,
                                               answers: Answers, complete: bool, n: nat)
    requires added == SectionItems(section, |before|) &&
             Stable(before, added, section.visibleWhen, Kept(h, answers)) && n <= |added|
    ensures ProblemsUpTo(h, before, added, section, answers, complete, n)
    decreases n
  {
    if n == 0 {
      assert before + added[..n] == before;
    } else {
      ProblemsOverSection(h, before, added, section, answers, complete, n - 1);
      ProblemsOfNext(h, before, added, section, answers, complete, n - 1);
    }
  }

  lemma ProblemsOfNext(h: Host, before: seq<Item>, added: seq<Item>, section: Section, answers: Answers,
                       complete: bool, n: nat)
    requires added == SectionItems(section, |before|) &&
             Stable(before, added, section.visibleWhen, Kept(h, answers)) && n < |added|
    requires ProblemsUpTo(h, before, added, section, answers, complete, n)
    ensures ProblemsUpTo(h, before, added, section, answers, complete, n + 1)
  {
    AddedNext(before, added, n + 1);
    PassOverSection(before, added, section, Kept(h, answers), n);
    NextProblems(h, before + added[..n], section, |before|, n, Pass(before, Kept(h, answers)),
                 Problems(h, before, answers, complete), answers, complete);
  }

  lemma {:induction false} ActiveOverSection(before: seq<Item>, added: seq<Item>, section: Section,
                                             put: Question -> Option<Value>, n: nat)
    requires added == SectionItems(section, |before|) && Stable(before, added, section.visibleWhen, put) && n <= |added|
    requires Holds(section.visibleWhen, Pass(before, put))
    ensures ActiveItems(before + added[..n], put) ==
            ActiveItems(before, put) +
                InSection(section, |before|, SectionActive(section.questions[..n], Pass(before, put), put))
    decreases n
  {
    if n == 0 {
      assert before + added[..n] == before;
    } else {
      ActiveOverSection(before, added, section, put, n - 1);
      AddedNext(before, added, n);
      ActiveSnoc(before + added[..n - 1], added[n - 1], put);
      ActiveAtNext(before, added, section, put, n);
      var rest := SectionActive(section.questions[..n - 1], Pass(before, put), put);
      SectionActiveSnoc(section, |before|, n, Pass(before, put), put);
      Associative(ActiveItems(before, put), InSection(section, |before|, rest), [added[n - 1]]);
    }
  }

  lemma ActiveAtNext(before: seq<Item>, added: seq<Item>, section: Section, put: Question -> Option<Value>, n: nat)
    requires added == SectionItems(section, |before|) && Stable(before, added, section.visibleWhen, put)
    requires 0 < n <= |added| && Holds(section.visibleWhen, Pass(before, put))
    ensures added[n - 1] == Item(section.id, section.visibleWhen, |before|, section.questions[n - 1])
    ensures Active(added[n - 1], Pass(before + added[..n - 1], put)) <==>
            Holds(section.questions[n - 1].visibleWhen,
                  SectionPass(section.questions[..n - 1], Pass(before, put), put))
  {
    PassOverSection(before, added, section, put, n - 1);
  }

  lemma {:induction false} InactiveOverSection(before: seq<Item>, added: seq<Item>, section: Section,
                                               put: Question -> Option<Value>, n: nat)
    requires added == SectionItems(section, |before|) && Stable(before, added, section.visibleWhen, put) && n <= |added|
    requires !Holds(section.visibleWhen, Pass(before, put))
    ensures ActiveItems(before + added[..n], put) == ActiveItems(before, put)
    decreases n
  {
    if n == 0 {
      assert before + added[..n] == before;
    } else {
      InactiveOverSection(before, added, section, put, n - 1);
      AddedNext(before, added, n);
      ActiveSnoc(before + added[..n - 1], added[n - 1], put);
    }
  }

  lemma Associative(a: seq<Item>, b: seq<Item>, c: seq<Item>)
    ensures (a + b) + c == a + (b + c) && a + [] == a && b + [] == b
  {
  }

  lemma InSectionExtends(section: Section, start: nat, questions: seq<Question>, q: Question)
    ensures InSection(section, start, questions + [q]) ==
            InSection(section, start, questions) + [Item(section.id, section.visibleWhen, start, q)]
  {
    assert (questions + [q])[..|questions|] == questions;
  }

  lemma PrefixSteps(questions: seq<Question>, n: nat)
    requires 0 < n <= |questions|
    ensures questions[..n][..n - 1] == questions[..n - 1] && questions[..n][n - 1] == questions[n - 1]
  {
  }

  /** The passes, one section at a time. */
  lemma SectionStep(h: Host, schema: Schema, s: nat, put: Question -> Option<Value>)
    requires Accepted(h, schema) && s < |schema|
    ensures var m := Pass(Flat(schema[..s]), put);
            && Pass(Flat(schema[..s + 1]), put) ==
                 (if Holds(schema[s].visibleWhen, m) then SectionPass(schema[s].questions, m, put) else m)
            && ActiveItems(Flat(schema[..s + 1]), put) == ActiveItems(Flat(schema[..s]), put) +
                 (if Holds(schema[s].visibleWhen, m)
                  then InSection(schema[s], |Flat(schema[..s])|, SectionActive(schema[s].questions, m, put)) else [])
  {
    var before, added, n := Flat(schema[..s]), Added(schema, s), |schema[s].questions|;
    assert schema[s].questions[..n] == schema[s].questions && added[..n] == added;
    AddedIsNext(schema, s);
    AcceptedIsStable(h, schema, s, put);
    PassOverSection(before, added, schema[s], put, n);
    if Holds(schema[s].visibleWhen, Pass(before, put)) {
      ActiveOverSection(before, added, schema[s], put, n);
    } else {
      InactiveOverSection(before, added, schema[s], put, n);
    }
  }

  lemma SectionProblemsStep(h: Host, schema: Schema, s: nat, answers: Answers, complete: bool)
    requires Accepted(h, schema) && s < |schema|
    ensures var m, rest := Pass(Flat(schema[..s]), Kept(h, answers)), Problems(h, Flat(schema[..s]), answers, complete);
            Problems(h, Flat(schema[..s + 1]), answers, complete) ==
              if Holds(schema[s].visibleWhen, m)
                  then SectionProblems(h, schema[s].questions, m, answers, complete, rest) else rest
  {
    var before, added, n := Flat(schema[..s]), Added(schema, s), |schema[s].questions|;
    assert schema[s].questions[..n] == schema[s].questions && added[..n] == added;
    AddedIsNext(schema, s);
    AcceptedIsStable(h, schema, s, Kept(h, answers));
    ProblemsOverSection(h, before, added, schema[s], answers, complete, n);
  }

  // ----- Sanitizing -----

  method SanitizeSection(h: Host, section: Section, answers: Answers, complete: bool, before: Answers,
                         problems: map<string, seq<Problem>>)
    returns (sanitized: Answers, errors: map<string, seq<Problem>>)
    ensures sanitized == SectionPass(section.questions, before, Kept(h, answers))
    ensures errors == SectionProblems(h, section.questions, before, answers, complete, problems)
  {
    sanitized, errors := before, problems;
    for j := 0 to |section.questions|
      invariant sanitized == SectionPass(section.questions[..j], before, Kept(h, answers))
      invariant errors == SectionProblems(h, section.questions[..j], before, answers, complete, problems)
    {
      var question := section.questions[j];
      SectionPassSnoc(section.questions, j + 1, before, Kept(h, answers));
      SectionProblemsSnoc(h, section.questions, j + 1, before, answers, complete, problems);
      if Holds(question.visibleWhen, sanitized) {
        if question.id !in answers || IsEmpty(answers[question.id]) {
          if complete && question.required {
            errors := errors[question.id := [Required]];
          }
        } else {
          var coerced := Coerce(h, question, answers[question.id]);
          if coerced.Some? {
            sanitized := sanitized[question.id := coerced.value];
          } else {
            errors := errors[question.id := [Invalid]];
          }
        }
      }
    }
    assert section.questions[..|section.questions|] == section.questions;
  }

  /** Sanitizing loops over sections and questions once, and gives what one pass over the flat questions gives. */
  method SanitizeAnswers(h: Host, schema: Schema, answers: Answers, complete: bool) returns (result: Sanitized)
    ensures result == Sanitize(h, schema, answers, complete)
  {
    var valid := ValidateTemplateSchema(h, schema);
    if !valid {
      return SchemaRejected;
    }
    var sanitized: Answers, errors: map<string, seq<Problem>> := map[], map[];
    for s := 0 to |schema|
      invariant sanitized == Pass(Flat(schema[..s]), Kept(h, answers))
      invariant errors == Problems(h, Flat(schema[..s]), answers, complete)
    {
      SectionStep(h, schema, s, Kept(h, answers));
      SectionProblemsStep(h, schema, s, answers, complete);
      if Holds(schema[s].visibleWhen, sanitized) {
        sanitized, errors := SanitizeSection(h, schema[s], answers, complete, sanitized, errors);
      }
    }
    assert schema[..|schema|] == schema;
    if complete && HasPartnerMismatch(h, sanitized) {
      var known := if "married_partner_name" in errors then errors["married_partner_name"] else [];
      errors := errors["married_partner_name" := known + [PartnerMismatch]];
    }
    return if errors == map[] then Stored(sanitized) else Rejected(errors);
  }

  // ----- Active questions and the report -----

  lemma ActivateNext(section: Section, start: nat, j: nat, m: Answers, put: Question -> Option<Value>)
    requires j < |section.questions|
    ensures var q, r := section.questions[j], SectionPass(section.questions[..j], m, put);
            && SectionPass(section.questions[..j + 1], m, put) ==
                 (if Holds(q.visibleWhen, r) && put(q).Some? then r[q.id := put(q).value] else r)
            && InSection(section, start, SectionActive(section.questions[..j + 1], m, put)) ==
                 InSection(section, start, SectionActive(section.questions[..j], m, put)) +
                 (if Holds(q.visibleWhen, r) then [Item(section.id, section.visibleWhen, start, q)] else [])
  {
    SectionPassSnoc(section.questions, j + 1, m, put);
    SectionActiveSnoc(section, start, j + 1, m, put);
  }

  method ActivateSection(h: Host, section: Section, start: nat, answers: Answers, before: Answers)
    returns (effective: Answers, active: seq<Item>)
    ensures effective == SectionPass(section.questions, before, Coerced(h, answers))
    ensures active == InSection(section, start, SectionActive(section.questions, before, Coerced(h, answers)))
  {
    effective, active := before, [];
    for j := 0 to |section.questions|
      invariant effective == SectionPass(section.questions[..j], before, Coerced(h, answers))
      invariant active == InSection(section, start, SectionActive(section.questions[..j], before, Coerced(h, answers)))
    {
      var question := section.questions[j];
      ActivateNext(section, start, j, before, Coerced(h, answers));
      if Holds(question.visibleWhen, effective) {
        active := active + [Item(section.id, section.visibleWhen, start, question)];
        if question.id in answers {
          var coerced := Coerce(h, question, answers[question.id]);
          if coerced.Some? {
            effective := effective[question.id := coerced.value];
          }
        }
      }
    }
    assert section.questions[..|section.questions|] == section.questions;
  }

  /** None is the error for a schema the validator rejects. */
  method GetActiveQuestions(h: Host, schema: Schema, answers: Answers) returns (active: Option<seq<Item>>)
    ensures active == if Accepted(h, schema) then Some(ActiveItems(Flat(schema), Coerced(h, answers))) else None
  {
    var valid := ValidateTemplateSchema(h, schema);
    if !valid {
      return None;
    }
    var effective: Answers := map[];
    var found: seq<Item> := [];
    var position := 0;
    for s := 0 to |schema|
      invariant position == |Flat(schema[..s])|
      invariant effective == Pass(Flat(schema[..s]), Coerced(h, answers))
      invariant found == ActiveItems(Flat(schema[..s]), Coerced(h, answers))
    {
      SectionStep(h, schema, s, Coerced(h, answers));
      AddedIsNext(schema, s);
      if Holds(schema[s].visibleWhen, effective) {
        var more;
        effective, more := ActivateSection(h, schema[s], position, answers, effective);
        found := found + more;
      }
      position := position + |schema[s].questions|;
    }
    assert schema[..|schema|] == schema;
    return Some(found);
  }

  /** The rows of the report, from active questions. */
  method FormatRows(active: seq<Item>, answers: Answers) returns (formatted: seq<Item>)
    ensures formatted == WithAnswer(active, answers)
  {
    formatted := [];
    for i := 0 to |active|
      invariant formatted == WithAnswer(active[..i], answers)
    {
      assert active[..i + 1][..i] == active[..i];
      if active[i].question.id in answers {
        formatted := formatted + [active[i]];
      }
    }
    assert active[..|active|] == active;
  }

  method FormatAnswers(h: Host, schema: Schema, answers: Answers) returns (rows: Option<seq<Item>>)
    ensures rows == if Accepted(h, schema) then Some(ReportRows(h, Flat(schema), answers)) else None
  {
    var active := GetActiveQuestions(h, schema, answers);
    if active.None? {
      return None;
    }
    var formatted := FormatRows(active.value, answers);
    return Some(formatted);
  }

  // ----- The browser -----

  /** The browser's pass over one section whose condition has been found to be `visible`. */
  function SectionBrowse(questions: seq<Question>, visible: bool, m: Answers, put: Question -> Option<Value>): Answers {
    if questions == [] then m
    else
      var r := SectionBrowse(questions[..|questions| - 1], visible, m, put);
      var q := questions[|questions| - 1];
      if visible && BrowserHolds(q.visibleWhen, r) && put(q).Some? then r[q.id := put(q).value] else r
  }

  function SectionShown(questions: seq<Question>, visible: bool, m: Answers,
                        put: Question -> Option<Value>): (shown: seq<bool>)
    ensures |shown| == |questions|
  {
    if questions == [] then []
    else
      var init := questions[..|questions| - 1];
      SectionShown(init, visible, m, put) +
      [visible && BrowserHolds(questions[|questions| - 1].visibleWhen, SectionBrowse(init, visible, m, put))]
  }

  method ShowSection(section: Section, answers: Answers, before: Answers)
    returns (effective: Answers, visible: bool, questions: seq<bool>)
    ensures visible == BrowserHolds(section.visibleWhen, before)
    ensures effective == SectionBrowse(section.questions, visible, before, Typed(answers))
    ensures questions == SectionShown(section.questions, visible, before, Typed(answers))
  {
    visible := BrowserHolds(section.visibleWhen, before);
    effective, questions := before, [];
    for j := 0 to |section.questions|
      invariant effective == SectionBrowse(section.questions[..j], visible, before, Typed(answers))
      invariant questions == SectionShown(section.questions[..j], visible, before, Typed(answers))
    {
      var question := section.questions[j];
      PrefixSteps(section.questions, j + 1);
      var questionVisible := visible && BrowserHolds(question.visibleWhen, effective);
      questions := questions + [questionVisible];
      if questionVisible && question.id in answers && answers[question.id] != Null && answers[question.id] != Str("") {
        effective := effective[question.id := answers[question.id]];
      }
    }
    assert section.questions[..|section.questions|] == section.questions;
  }

  /** The browser evaluates a section's condition once; its flat pass evaluates it at every question. */
  predicate BrowserStable(before: seq<Item>, added: seq<Item>, when: Option<Condition>,
                          put: Question -> Option<Value>) {
    forall n :: 0 <= n < |added| ==>
        BrowserHolds(when, BrowserPass(before + added[..n], put)) == BrowserHolds(when, BrowserPass(before, put))
  }

  lemma BrowserStableAt(h: Host, items: seq<Item>, k: nat, item: Item, answers: Answers, before: seq<Item>,
                        reached: seq<Item>)
    requires Ordered(h, items) && k < |items| && items[k] == item
    requires item.start == |before| && items[..|before|] == before && items[..k] == reached
    ensures BrowserHolds(item.sectionWhen, BrowserPass(reached, Typed(answers))) ==
            BrowserHolds(item.sectionWhen, BrowserPass(before, Typed(answers)))
  {
    BrowserSectionStable(h, items, k, answers);
  }

  lemma AcceptedIsBrowserStable(h: Host, schema: Schema, s: nat, answers: Answers)
    requires Accepted(h, schema) && s < |schema|
    ensures BrowserStable(Flat(schema[..s]), Added(schema, s), schema[s].visibleWhen, Typed(answers))
  {
    var before, added, put := Flat(schema[..s]), Added(schema, s), Typed(answers);
    forall n | 0 <= n < |added|
      ensures BrowserHolds(schema[s].visibleWhen, BrowserPass(before + added[..n], put)) ==
              BrowserHolds(schema[s].visibleWhen, BrowserPass(before, put))
    {
      AddedAt(schema, s, n);
      BrowserStableAt(h, Flat(schema), |before| + n, added[n], answers, before, before + added[..n]);
    }
  }

  lemma BrowserSectionStable(h: Host, items: seq<Item>, k: nat, answers: Answers)
    requires Ordered(h, items) && k < |items|
    ensures BrowserHolds(items[k].sectionWhen, BrowserPass(items[..k], Typed(answers))) ==
            BrowserShowsSection(items, k, answers)
  {
    var put := Typed(answers);
    BrowserShowsPass(h, items, k, answers);
    BrowserPassSame(h, items, put, k);
    PassWithoutNull(items[..k], put);
    BrowserHoldsSame(h, items, items[k].sectionWhen, items[k].start, Pass(items[..k], put));
    SectionStable(h, items, put, k);
  }

  lemma {:induction false} BrowseOverSection(before: seq<Item>, added: seq<Item>, section: Section,
                                             put: Question -> Option<Value>, n: nat)
    requires added == SectionItems(section, |before|) && BrowserStable(before, added, section.visibleWhen, put) &&
             n <= |added|
    ensures var m := BrowserPass(before, put);
            BrowserPass(before + added[..n], put) ==
                SectionBrowse(section.questions[..n], BrowserHolds(section.visibleWhen, m), m, put)
    decreases n
  {
    if n == 0 {
      assert before + added[..n] == before;
    } else {
      BrowseOverSection(before, added, section, put, n - 1);
      AddedNext(before, added, n);
      BrowseSnoc(before + added[..n - 1], added[n - 1], put);
      PrefixSteps(section.questions, n);
    }
  }

  lemma {:induction false} SectionShownAt(questions: seq<Question>, visible: bool, m: Answers,
                                          put: Question -> Option<Value>, n: nat, k: nat)
    requires k < n <= |questions|
    ensures SectionShown(questions[..n], visible, m, put)[k] ==
            (visible && BrowserHolds(questions[k].visibleWhen, SectionBrowse(questions[..k], visible, m, put)))
    decreases n
  {
    PrefixSteps(questions, n);
    if k < n - 1 {
      SectionShownAt(questions, visible, m, put, n - 1, k);
    }
  }

  /** The section and its questions are shown as the browser's evaluator says at their flat positions. */
  ghost predicate ShownAsEvaluated(schema: Schema, s: nat, answers: Answers, visible: bool, shown: seq<bool>)
    requires s < |schema|
  {
    && |shown| == |schema[s].questions|
    && forall n :: 0 <= n < |shown| ==> ShownAt(Flat(schema), |Flat(schema[..s])| + n, answers, visible, shown[n])
  }

  predicate ShownAt(items: seq<Item>, k: nat, answers: Answers, section: bool, question: bool) {
    && k < |items| && items[k].start <= |items|
    && section == BrowserShowsSection(items, k, answers)
    && question == BrowserShowsQuestion(items, k, answers)
  }

  lemma SectionShownRight(h: Host, schema: Schema, s: nat, answers: Answers, visible: bool, shown: seq<bool>)
    requires Accepted(h, schema) && s < |schema|
    requires visible == BrowserHolds(schema[s].visibleWhen, BrowserPass(Flat(schema[..s]), Typed(answers)))
    requires shown == SectionShown(schema[s].questions, visible, BrowserPass(Flat(schema[..s]), Typed(answers)),
                                   Typed(answers))
    ensures ShownAsEvaluated(schema, s, answers, visible, shown)
  {
    AcceptedIsBrowserStable(h, schema, s, answers);
    assert schema[s].questions[..|shown|] == schema[s].questions;
    forall n | 0 <= n < |shown|
      ensures ShownAt(Flat(schema), |Flat(schema[..s])| + n, answers, visible, shown[n])
    {
      SectionShownAt(schema[s].questions, visible, BrowserPass(Flat(schema[..s]), Typed(answers)), Typed(answers),
                     |shown|, n);
      QuestionShownRight(schema, s, answers, visible, n, shown[n]);
    }
  }

  lemma QuestionShownRight(schema: Schema, s: nat, answers: Answers, visible: bool, n: nat, shown: bool)
    requires s < |schema| && n < |schema[s].questions|
    requires BrowserStable(Flat(schema[..s]), Added(schema, s), schema[s].visibleWhen, Typed(answers))
    requires var m := BrowserPass(Flat(schema[..s]), Typed(answers));
             && visible == BrowserHolds(schema[s].visibleWhen, m)
             && shown == (visible &&
                          BrowserHolds(schema[s].questions[n].visibleWhen,
                                       SectionBrowse(schema[s].questions[..n], visible, m, Typed(answers))))
    ensures ShownAt(Flat(schema), |Flat(schema[..s])| + n, answers, visible, shown)
  {
    var before, added := Flat(schema[..s]), Added(schema, s);
    AddedAt(schema, s, n);
    BrowseOverSection(before, added, schema[s], Typed(answers), n);
    ShownHere(Flat(schema), |before| + n, added[n], answers, before, before + added[..n], visible, shown);
  }

  lemma ShownHere(items: seq<Item>, k: nat, item: Item, answers: Answers, before: seq<Item>, reached: seq<Item>,
                  visible: bool, shown: bool)
    requires k < |items| && items[k] == item && item.start == |before| <= |items|
    requires items[..|before|] == before && items[..k] == reached
    requires visible == BrowserHolds(item.sectionWhen, BrowserPass(before, Typed(answers)))
    requires shown == (visible && BrowserHolds(item.question.visibleWhen, BrowserPass(reached, Typed(answers))))
    ensures ShownAt(items, k, answers, visible, shown)
  {
  }

  /** The browser's pass over sections: what it knows after them, and what it shows of them. */
  function BrowseSections(schema: Schema, put: Question -> Option<Value>): Answers {
    if schema == [] then map[]
    else
      var m, section := BrowseSections(schema[..|schema| - 1], put), schema[|schema| - 1];
      SectionBrowse(section.questions, BrowserHolds(section.visibleWhen, m), m, put)
  }

  datatype Shown = Shown(section: bool, questions: seq<bool>)

  function ShowSections(schema: Schema, put: Question -> Option<Value>): (shown: seq<Shown>)
    ensures |shown| == |schema|
  {
    if schema == [] then []
    else
      var m, section := BrowseSections(schema[..|schema| - 1], put), schema[|schema| - 1];
      var visible := BrowserHolds(section.visibleWhen, m);
      ShowSections(schema[..|schema| - 1], put) + [Shown(visible, SectionShown(section.questions, visible, m, put))]
  }

  method Visibility(schema: Schema, answers: Answers) returns (shown: seq<Shown>)
    ensures shown == ShowSections(schema, Typed(answers))
  {
    var effective: Answers := map[];
    shown := [];
    for s := 0 to |schema|
      invariant effective == BrowseSections(schema[..s], Typed(answers))
      invariant shown == ShowSections(schema[..s], Typed(answers))
    {
      assert schema[..s + 1][..s] == schema[..s];
      var visible, questions;
      effective, visible, questions := ShowSection(schema[s], answers, effective);
      shown := shown + [Shown(visible, questions)];
    }
    assert schema[..|schema|] == schema;
  }

  lemma {:induction false} BrowseSectionsIsPass(h: Host, schema: Schema, answers: Answers, s: nat)
    requires Accepted(h, schema) && s <= |schema|
    ensures BrowseSections(schema[..s], Typed(answers)) == BrowserPass(Flat(schema[..s]), Typed(answers))
    decreases s
  {
    if s > 0 {
      BrowseSectionsIsPass(h, schema, answers, s - 1);
      BrowsedSection(h, schema, s - 1, answers);
      assert schema[..s][..s - 1] == schema[..s - 1];
    }
  }

  lemma {:induction false} ShowSectionsAt(schema: Schema, put: Question -> Option<Value>, s: nat, n: nat)
    requires s < n <= |schema|
    ensures var m := BrowseSections(schema[..s], put);
            var visible := BrowserHolds(schema[s].visibleWhen, m);
            ShowSections(schema[..n], put)[s] == Shown(visible, SectionShown(schema[s].questions, visible, m, put))
    decreases n
  {
    assert schema[..n][..n - 1] == schema[..n - 1];
    if s < n - 1 {
      ShowSectionsAt(schema, put, s, n - 1);
    }
  }

  /** On an accepted schema the browser's loops, which evaluate a section's condition once, show exactly the
      sections and questions that its flat pass shows. */
  lemma VisibilityAsEvaluated(h: Host, schema: Schema, answers: Answers, s: nat)
    requires Accepted(h, schema) && s < |schema|
    ensures var shown := ShowSections(schema, Typed(answers))[s];
            ShownAsEvaluated(schema, s, answers, shown.section, shown.questions)
  {
    ShowSectionsAt(schema, Typed(answers), s, |schema|);
    assert schema[..|schema|] == schema;
    BrowseSectionsIsPass(h, schema, answers, s);
    var shown := ShowSections(schema, Typed(answers))[s];
    SectionShownRight(h, schema, s, answers, shown.section, shown.questions);
  }

  lemma BrowsedSection(h: Host, schema: Schema, s: nat, answers: Answers)
    requires Accepted(h, schema) && s < |schema|
    ensures var m := BrowserPass(Flat(schema[..s]), Typed(answers));
            BrowserPass(Flat(schema[..s + 1]), Typed(answers)) ==
              SectionBrowse(schema[s].questions, BrowserHolds(schema[s].visibleWhen, m), m, Typed(answers))
  {
    var before, added, n := Flat(schema[..s]), Added(schema, s), |schema[s].questions|;
    assert schema[s].questions[..n] == schema[s].questions && added[..n] == added;
    AddedIsNext(schema, s);
    AcceptedIsBrowserStable(h, schema, s, answers);
    BrowseOverSection(before, added, schema[s], Typed(answers), n);
  }

  // ----- The browser's loops and the server's loops together -----

  /** The flags of all questions, in schema order. */
  function Flags(shown: seq<Shown>): seq<bool> {
    if shown == [] then [] else Flags(shown[..|shown| - 1]) + shown[|shown| - 1].questions
  }

  function Flagged(items: seq<Item>, flags: seq<bool>): seq<Item>
    requires |flags| == |items|
  {
    if items == [] then []
    else
      var n := |items| - 1;
      Flagged(items[..n], flags[..n]) + (if flags[n] then [items[n]] else [])
  }

  predicate FlagRight(items: seq<Item>, answers: Answers, k: nat, flag: bool) {
    k < |items| && items[k].start <= |items| && flag == BrowserShowsQuestion(items, k, answers)
  }

  predicate FlagsRight(items: seq<Item>, answers: Answers, flags: seq<bool>) {
    forall k :: 0 <= k < |flags| ==> FlagRight(items, answers, k, flags[k])
  }

  lemma FlagsExtend(items: seq<Item>, answers: Answers, flags: seq<bool>, visible: bool, more: seq<bool>)
    requires FlagsRight(items, answers, flags)
    requires forall n :: 0 <= n < |more| ==> ShownAt(items, |flags| + n, answers, visible, more[n])
    ensures FlagsRight(items, answers, flags + more)
  {
    forall k | 0 <= k < |flags + more|
      ensures FlagRight(items, answers, k, (flags + more)[k])
    {
      if k >= |flags| {
        assert ShownAt(items, |flags| + (k - |flags|), answers, visible, more[k - |flags|]);
      }
    }
  }

  lemma FlagsSnoc(shown: seq<Shown>, n: nat)
    requires n < |shown|
    ensures Flags(shown[..n + 1]) == Flags(shown[..n]) + shown[n].questions
  {
    assert shown[..n + 1][..n] == shown[..n];
  }

  lemma NextSectionFlags(schema: Schema, s: nat, answers: Answers, flags: seq<bool>, section: Shown)
    requires s < |schema| && |flags| == |Flat(schema[..s])| && FlagsRight(Flat(schema), answers, flags)
    requires ShownAsEvaluated(schema, s, answers, section.section, section.questions)
    ensures FlagsRight(Flat(schema), answers, flags + section.questions)
    ensures |flags + section.questions| == |Flat(schema[..s + 1])|
  {
    AddedIsNext(schema, s);
    FlagsExtend(Flat(schema), answers, flags, section.section, section.questions);
  }

  lemma {:induction false} FlagsAsEvaluated(h: Host, schema: Schema, answers: Answers, s: nat, shown: seq<Shown>)
    requires Accepted(h, schema) && s <= |schema| && shown == ShowSections(schema, Typed(answers))
    ensures |Flags(shown[..s])| == |Flat(schema[..s])| && FlagsRight(Flat(schema), answers, Flags(shown[..s]))
    decreases s
  {
    if s > 0 {
      FlagsAsEvaluated(h, schema, answers, s - 1, shown);
      VisibilityAsEvaluated(h, schema, answers, s - 1);
      FlagsSnoc(shown, s - 1);
      NextSectionFlags(schema, s - 1, answers, Flags(shown[..s - 1]), shown[s - 1]);
    }
  }

  lemma {:induction false} FlaggedIsActive(h: Host, items: seq<Item>, answers: Answers, flags: seq<bool>, n: nat)
    requires |flags| == |items| && n <= |items|
    requires forall k :: 0 <= k < |items| ==> flags[k] == ServerActivatesQuestion(h, items, k, answers)
    ensures Flagged(items[..n], flags[..n]) == ActiveItems(items[..n], Coerced(h, answers))
    decreases n
  {
    if n > 0 {
      FlaggedIsActive(h, items, answers, flags, n - 1);
      assert items[..n][..n - 1] == items[..n - 1] && flags[..n][..n - 1] == flags[..n - 1];
      assert flags[n - 1] == ServerActivatesQuestion(h, items, n - 1, answers);
    }
  }

  lemma FlagsAgree(h: Host, items: seq<Item>, answers: Answers, flags: seq<bool>)
    requires |flags| == |items| && FlagsRight(items, answers, flags)
    requires forall k :: 0 <= k < |items| ==> items[k].start <= |items| && Agree(h, items, k, answers)
    ensures Flagged(items, flags) == ActiveItems(items, Coerced(h, answers))
  {
    forall k | 0 <= k < |items|
      ensures flags[k] == ServerActivatesQuestion(h, items, k, answers)
    {
      assert FlagRight(items, answers, k, flags[k]);
      assert Agree(h, items, k, answers);
    }
    FlaggedIsActive(h, items, answers, flags, |items|);
    assert items[..|items|] == items && flags[..|items|] == flags;
  }

  lemma FirstAgrees(h: Host, items: seq<Item>, answers: Answers, first: nat, section: Item, before: seq<Item>,
                    visible: bool, flag: bool)
    requires ShownAt(items, first, answers, visible, flag) && Agree(h, items, first, answers)
    requires items[first] == section && section.start == |before| && items[..|before|] == before
    ensures visible == Holds(section.sectionWhen, Pass(before, Coerced(h, answers)))
  {
  }

  lemma SectionAgrees(h: Host, schema: Schema, answers: Answers, s: nat)
    requires Accepted(h, schema) && s < |schema|
    requires forall k :: 0 <= k < |Flat(schema)| ==> Agree(h, Flat(schema), k, answers)
    ensures ShowSections(schema, Typed(answers))[s].section ==
            Holds(schema[s].visibleWhen, Pass(Flat(schema[..s]), Coerced(h, answers)))
  {
    var before := Flat(schema[..s]);
    var shown := ShowSections(schema, Typed(answers))[s];
    VisibilityAsEvaluated(h, schema, answers, s);
    AddedAt(schema, s, 0);
    assert ShownAt(Flat(schema), |before| + 0, answers, shown.section, shown.questions[0]);
    FirstAgrees(h, Flat(schema), answers, |before|, Added(schema, s)[0], before, shown.section, shown.questions[0]);
  }

  /** Where the server's decisions do not depend on answered empty texts, the questions that the browser's loops
      show are exactly those that the server's loops return, in the same order; and the sections likewise. */
  lemma BrowserShowsServerQuestions(h: Host, schema: Schema, answers: Answers)
    requires Accepted(h, schema) && Normalized(h, Flat(schema), answers) && h.lower("") == ""
    requires forall k :: 0 <= k < |Flat(schema)| ==> Indifferent(h, Flat(schema), k, answers)
    ensures var shown := ShowSections(schema, Typed(answers));
            && |Flags(shown)| == |Flat(schema)|
            && Flagged(Flat(schema), Flags(shown)) == ActiveItems(Flat(schema), Coerced(h, answers))
            && forall s :: 0 <= s < |schema| ==>
                 shown[s].section == Holds(schema[s].visibleWhen, Pass(Flat(schema[..s]), Coerced(h, answers)))
  {
    var shown := ShowSections(schema, Typed(answers));
    BrowserAgreesIff(h, schema, answers);
    assert shown[..|schema|] == shown && schema[..|schema|] == schema;
    FlagsAsEvaluated(h, schema, answers, |schema|, shown);
    FlagsAgree(h, Flat(schema), answers, Flags(shown));
    forall s | 0 <= s < |schema|
      ensures shown[s].section == Holds(schema[s].visibleWhen, Pass(Flat(schema[..s]), Coerced(h, answers)))
    {
      SectionAgrees(h, schema, answers, s);
    }
  }

  // ----- The briefing -----

  datatype BriefingStatus = Draft | Completed | Cancelled

  lemma {:induction false} RowsAreKeys(rows: seq<Item>)
    requires UniqueIds(rows)
    ensures |rows| == |set row <- rows :: row.question.id|
    decreases |rows|
  {
    if rows != [] {
      var n := |rows| - 1;
      RowsAreKeys(rows[..n]);
      NewId(rows, n);
      assert rows[..n + 1] == rows;
      assert Ids(rows) == Ids(rows[..n]) + {rows[n].question.id};
    }
  }

  lemma ReportCountsStored(h: Host, schema: Schema, answers: Answers, complete: bool)
    requires Sanitize(h, schema, answers, complete).Stored?
    ensures var m := Sanitize(h, schema, answers, complete).answers;
            |ReportRows(h, Flat(schema), m)| == |m|
  {
    ReportCoversStored(h, schema, answers, complete);
    var m := Sanitize(h, schema, answers, complete).answers;
    RowsAreKeys(ReportRows(h, Flat(schema), m));
    assert |m| == |m.Keys|;
  }

  class Briefing {
    const host: Host
    const schema: Schema
    var answers: Answers
    var status: BriefingStatus
    var answersCount: nat

    constructor (host: Host, schema: Schema)
      ensures this.host == host && this.schema == schema && answers == map[] && status == Draft && answersCount == 0
    {
      this.host, this.schema, answers, status, answersCount := host, schema, map[], Draft, 0;
    }

    /** A draft is saved only while the briefing is a draft and its answers can be sanitized. */
    method SaveDraft(given: Answers) returns (saved: bool)
      modifies this
      ensures saved == (old(status) == Draft && Sanitize(host, schema, given, false).Stored?)
      ensures status == old(status)
      ensures saved ==> Stored(answers) == Sanitize(host, schema, given, false) && answersCount == |answers|
      ensures !saved ==> answers == old(answers) && answersCount == old(answersCount)
    {
      if status != Draft {
        return false;
      }
      var result := SanitizeAnswers(host, schema, given, false);
      if !result.Stored? {
        return false;
      }
      answers, answersCount := result.answers, |result.answers|;
      return true;
    }

    /** Completing counts the rows of the report, which are exactly the stored answers. */
    method Complete(given: Answers) returns (completed: bool)
      modifies this
      ensures completed == (old(status) == Draft && Sanitize(host, schema, given, true).Stored?)
      ensures completed ==>
              status == Completed && Stored(answers) == Sanitize(host, schema, given, true) && answersCount == |answers|
      ensures !completed ==> status == old(status) && answers == old(answers) && answersCount == old(answersCount)
    {
      if status != Draft {
        return false;
      }
      var result := SanitizeAnswers(host, schema, given, true);
      if !result.Stored? {
        return false;
      }
      ReportCountsStored(host, schema, given, true);
      var rows := FormatAnswers(host, schema, result.answers);
      answers, status, answersCount := result.answers, Completed, |rows.value|;
      return true;
    }

    method Cancel() returns (cancelled: bool)
      modifies this
      ensures cancelled == (old(status) == Draft)
      ensures status == if cancelled then Cancelled else old(status)
      ensures answers == old(answers) && answersCount == old(answersCount)
    {
      cancelled := status == Draft;
      if cancelled {
        status := Cancelled;
      }
    }
  }

  /** Saving a draft first and completing with what it stored ends like completing at once, when no stored text
      is blank. */
  method CompleteFromDraft(direct: Briefing, staged: Briefing, given: Answers)
    requires direct != staged && direct.host == staged.host && direct.schema == staged.schema
    requires direct.status == Draft && staged.status == Draft
    requires Sanitize(direct.host, direct.schema, given, false).Stored?
    requires NoEmptyText(Sanitize(direct.host, direct.schema, given, false).answers)
    modifies direct, staged
    ensures direct.status == staged.status
    ensures direct.status == Completed ==>
            direct.answers == staged.answers && direct.answersCount == staged.answersCount
  {
    CompletingFromDraft(direct.host, direct.schema, given);
    var saved := staged.SaveDraft(given);
    var fromDraft := staged.Complete(staged.answers);
    var atOnce := direct.Complete(given);
  }
}
